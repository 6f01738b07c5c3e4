/**
 * The action bookkeeping of `GoalOrientedBot` in
 * deeppavlov/skills/go_bot/go_bot.py: the action mask derived from the
 * `#Entity` placeholders of the templates, the slot merge of a response,
 * the one-hot previous action, `reset`, and the batch-versus-dialog dispatch.
 *
 * The network, the templates' text generation, the tokenizer and the slot
 * filler are parameters: the action the network chooses for a turn is an
 * input (`choice`), `generate` renders a template with its slots, and
 * `fill` gives the slot filler's output for an utterance. Probabilities,
 * embeddings and the other float features are not modelled.
 */
module GoBot {
  import opened Wrappers
  import opened Text
  import opened Assoc
  import DT = DefaultTracker

  // ---------------------------------------------------------------------
  // Template placeholders: re.findall('#([A-Za-z]+)', template)
  // ---------------------------------------------------------------------

  predicate IsAsciiLetter(c: char) {
    ('A' <= c <= 'Z') || ('a' <= c <= 'z')
  }

  /** The length of the run of ASCII letters `s` starts with. */
  function LetterRun(s: string): (n: nat)
    ensures n <= |s|
    ensures forall i :: 0 <= i < n ==> IsAsciiLetter(s[i])
    ensures n < |s| ==> !IsAsciiLetter(s[n])
  {
    if s != [] && IsAsciiLetter(s[0]) then 1 + LetterRun(s[1..]) else 0
  }

  /** The entity names of the `#Name` placeholders of a template, left to right. */
  function Placeholders(s: string): seq<string>
    decreases |s|
  {
    if |s| < 2 then []
    else if s[0] == '#' && LetterRun(s[1..]) > 0 then
      var n := LetterRun(s[1..]);
      [s[1..1 + n]] + Placeholders(s[1 + n..])
    else Placeholders(s[1..])
  }

  /** `e` is matched at `i`: it follows a `#` there and is a maximal run of letters. */
  predicate PlaceholderAt(s: string, i: int, e: string) {
    && 1 <= i && i + |e| <= |s|
    && s[i - 1] == '#' && s[i..i + |e|] == e
    && (i + |e| < |s| ==> !IsAsciiLetter(s[i + |e|]))
  }

  lemma PlaceholderShift(s: string, d: nat, i: int, e: string)
    requires d <= |s| && PlaceholderAt(s[d..], i, e)
    ensures PlaceholderAt(s, d + i, e)
  {
    assert s[d..][i - 1] == s[d + i - 1];
    assert s[d..][i..i + |e|] == s[d + i..d + i + |e|];
    if i + |e| < |s[d..]| {
      assert s[d..][i + |e|] == s[d + i + |e|];
    }
  }

  /**
   * Every placeholder is a non-empty run of ASCII letters found in the
   * template right after a `#` and not followed by another letter.
   */
  lemma {:induction false} PlaceholdersShape(s: string)
    ensures forall e :: e in Placeholders(s) ==>
      && e != []
      && (forall i :: 0 <= i < |e| ==> IsAsciiLetter(e[i]))
      && exists i :: PlaceholderAt(s, i, e)
    decreases |s|
  {
    if |s| >= 2 {
      var d: nat := if s[0] == '#' && LetterRun(s[1..]) > 0 then 1 + LetterRun(s[1..]) else 1;
      var rest := s[d..];
      PlaceholdersShape(rest);
      forall e | e in Placeholders(rest) ensures exists i :: PlaceholderAt(s, i, e) {
        var i :| PlaceholderAt(rest, i, e);
        PlaceholderShift(s, d, i, e);
      }
      if s[0] == '#' && LetterRun(s[1..]) > 0 {
        var n := LetterRun(s[1..]);
        var e := s[1..1 + n];
        assert forall i :: 0 <= i < |e| ==> e[i] == s[1..][i];
        if 1 + n < |s| {
          assert s[1..][n] == s[1 + n];
        }
        assert PlaceholderAt(s, 1, e);
        assert Placeholders(s) == [e] + Placeholders(rest);
      }
    }
  }

  /** Every `#` followed by a letter starts a placeholder: the maximal run of letters after it. */
  lemma {:induction false} PlaceholdersComplete(s: string, i: nat)
    requires 1 <= i < |s| && s[i - 1] == '#' && IsAsciiLetter(s[i])
    ensures s[i..i + LetterRun(s[i..])] in Placeholders(s)
  {
    var e := RunAt(s, i);
    PlaceholderFound(s, i, e);
  }

  /** The maximal run of letters after a `#` is matched there. */
  lemma RunAt(s: string, i: nat) returns (e: string)
    requires 1 <= i < |s| && s[i - 1] == '#' && IsAsciiLetter(s[i])
    ensures e == s[i..i + LetterRun(s[i..])]
    ensures PlaceholderAt(s, i, e) && e != [] && forall j :: 0 <= j < |e| ==> IsAsciiLetter(e[j])
  {
    var n := LetterRun(s[i..]);
    e := s[i..i + n];
    assert s[i..][0] == s[i];
    assert forall j :: 0 <= j < |e| ==> e[j] == s[i..][j];
    if i + n < |s| {
      assert s[i..][n] == s[i + n];
    }
  }

  /**
   * Conversely to PlaceholdersShape: a non-empty run of letters matched
   * right after a `#` is one of the placeholders.
   */
  lemma {:induction false} PlaceholderFound(s: string, i: int, e: string)
    requires PlaceholderAt(s, i, e) && e != []
    requires forall j :: 0 <= j < |e| ==> IsAsciiLetter(e[j])
    ensures e in Placeholders(s)
    decreases |s|
  {
    if i == 1 {
      var d := PlaceholdersStep(s);
      assert forall j :: 0 <= j < |e| ==> s[1..][j] == e[j];
      if 1 + |e| < |s| {
        assert s[1..][|e|] == s[1 + |e|];
      }
      RunLength(s[1..], |e|);
      assert s[1..d] == e;
    } else {
      var d := StepLength(s);
      PlaceholdersSkipRun(s, i);
      PlaceholderUnshift(s, d, i, e);
      PlaceholderFound(s[d..], i - d, e);
      PlaceholdersAfterStep(s, e);
    }
  }

  /** The run of letters at the start of `t` is `k` long when `k` letters are followed by a non-letter or the end. */
  lemma RunLength(t: string, k: nat)
    requires k <= |t| && forall j :: 0 <= j < k ==> IsAsciiLetter(t[j])
    requires k < |t| ==> !IsAsciiLetter(t[k])
    ensures LetterRun(t) == k
  {
  }

  lemma PlaceholderUnshift(s: string, d: nat, i: int, e: string)
    requires d < i && PlaceholderAt(s, i, e)
    ensures PlaceholderAt(s[d..], i - d, e)
  {
    assert s[d..][i - d - 1] == s[i - 1];
    assert s[d..][i - d..i - d + |e|] == s[i..i + |e|];
    if i + |e| < |s| {
      assert s[d..][i - d + |e|] == s[i + |e|];
    }
  }

  /** A `#` at position `i - 1 > 0` lies past the first step of the scan. */
  lemma PlaceholdersSkipRun(s: string, i: nat)
    requires 2 <= i < |s| && s[i - 1] == '#'
    ensures i > StepLength(s)
  {
    if s[0] == '#' && LetterRun(s[1..]) > 0 && i <= 1 + LetterRun(s[1..]) {
      assert false;
    }
  }

  /** How far one step of the scan advances: past a `#` and its letters, or one character. */
  function StepLength(s: string): (d: nat)
    requires |s| >= 2
    ensures 1 <= d <= |s|
    ensures d > 1 <==> s[0] == '#' && LetterRun(s[1..]) > 0
  {
    if s[0] == '#' && LetterRun(s[1..]) > 0 then 1 + LetterRun(s[1..]) else 1
  }

  /**
   * One step of the scan: a `#` followed by letters yields them and skips
   * past them; anything else skips one character.
   */
  lemma PlaceholdersStep(s: string) returns (d: nat)
    requires |s| >= 2
    ensures d == StepLength(s)
    ensures d > 1 ==> d == 1 + LetterRun(s[1..]) && Placeholders(s) == [s[1..d]] + Placeholders(s[d..])
    ensures d == 1 ==> Placeholders(s) == Placeholders(s[1..])
  {
    d := StepLength(s);
  }

  /** A placeholder found after the first step of the scan is found in the whole template. */
  lemma PlaceholdersAfterStep(s: string, e: string)
    requires |s| >= 2 && e in Placeholders(s[StepLength(s)..])
    ensures e in Placeholders(s)
  {
    var d := PlaceholdersStep(s);
  }

  /** A template without `#` has no placeholders. */
  lemma {:induction false} NoPlaceholders(s: string)
    requires '#' !in s
    ensures Placeholders(s) == []
    decreases |s|
  {
    if |s| >= 2 {
      assert s[0] != '#';
      NoPlaceholders(s[1..]);
    }
  }

  // ---------------------------------------------------------------------
  // Values and vectors
  // ---------------------------------------------------------------------

  /** A value of a database result. */
  datatype DbValue = DStr(s: string) | DInt(i: int) | DBool(b: bool) | DNone

  type DbResult = map<string, DbValue>

  /** Python's `str(v)`. */
  function Str(v: DbValue): string {
    match v
    case DStr(s) => s
    case DInt(i) => IntToString(i)
    case DBool(b) => if b then "True" else "False"
    case DNone => "None"
  }

  function Zeros(n: nat): seq<int> {
    seq(n, _ => 0)
  }

  /** `v *= 0; v[id] = 1` on a vector of length `n`. */
  function OneHot(n: nat, id: nat): seq<int> {
    seq(n, i => if i == id then 1 else 0)
  }

  /** The previous-action vector after actions `ids` were taken in turn, starting from `start`. */
  function LastPrev(n: nat, start: seq<int>, ids: seq<nat>): seq<int> {
    if ids == [] then start else OneHot(n, ids[|ids| - 1])
  }

  /** A one-hot vector has a single 1, at `id`, and zeros elsewhere. */
  lemma OneHotMeaning(n: nat, id: nat)
    requires id < n
    ensures |OneHot(n, id)| == n
    ensures OneHot(n, id)[id] == 1
    ensures forall i :: 0 <= i < n && i != id ==> OneHot(n, id)[i] == 0
    ensures Count(OneHot(n, id), 1) == 1
  {
    var v := OneHot(n, id);
    assert v == Zeros(id) + [1] + Zeros(n - id - 1);
    CountAppend(Zeros(id) + [1], Zeros(n - id - 1), 1);
    CountAppend(Zeros(id), [1], 1);
    assert 1 !in Zeros(id) && 1 !in Zeros(n - id - 1);
  }

  /** The entities a mask may rely on: the tracker's slots and the database result's keys. */
  function Known(history: seq<(string, string)>, db: Option<DbResult>): set<string> {
    LastWins(history).Keys + (if db.Some? then db.value.Keys else {})
  }

  /** A template some of whose placeholders is not a known entity. */
  predicate Blocked(template: string, known: set<string>) {
    exists e :: e in Placeholders(template) && e !in known
  }

  /** `_action_mask`: 0 for an action whose template needs an unknown entity, 1 otherwise; all 1 when masking is off. */
  function Mask(useMask: bool, templates: seq<string>, known: set<string>): (m: seq<int>)
    ensures |m| == |templates|
  {
    seq(|templates|, a requires 0 <= a < |templates| => if useMask && Blocked(templates[a], known) then 0 else 1)
  }

  /** Some placeholder of `template` was never a tracked slot and is not a key of the database result. */
  predicate NeedsUntracked(template: string, history: seq<(string, string)>, db: Option<DbResult>) {
    exists e :: e in Placeholders(template)
                && (forall k :: 0 <= k < |history| ==> history[k].0 != e)
                && (db.Some? ==> e !in db.value)
  }

  /**
   * The mask is all ones when masking is off; with it on, an action is
   * masked out iff its template has a placeholder that is neither a tracked
   * slot nor a key of the database result.
   */
  lemma MaskMeaning(useMask: bool, templates: seq<string>, history: seq<(string, string)>, db: Option<DbResult>)
    ensures var m := Mask(useMask, templates, Known(history, db));
      && (!useMask ==> m == seq(|templates|, _ => 1))
      && (forall a :: 0 <= a < |templates| ==> m[a] == 0 || m[a] == 1)
      && (useMask ==> forall a :: 0 <= a < |templates| ==> (m[a] == 0 <==> NeedsUntracked(templates[a], history, db)))
  {
    var known := Known(history, db);
    var m := Mask(useMask, templates, known);
    assert forall a | 0 <= a < |templates| :: m[a] == (if useMask && Blocked(templates[a], known) then 0 else 1);
    forall a | 0 <= a < |templates|
      ensures Blocked(templates[a], known) <==> NeedsUntracked(templates[a], history, db)
    {
      BlockedMeaning(templates[a], history, db);
    }
  }

  /** A template is blocked iff one of its placeholders was never tracked and is not in the database result. */
  lemma BlockedMeaning(template: string, history: seq<(string, string)>, db: Option<DbResult>)
    ensures Blocked(template, Known(history, db)) <==> NeedsUntracked(template, history, db)
  {
    KnownMeaning(history, db);
    var known := Known(history, db);
    if Blocked(template, known) {
      var e :| e in Placeholders(template) && e !in known;
      assert e in Placeholders(template) && (forall k :: 0 <= k < |history| ==> history[k].0 != e)
             && (db.Some? ==> e !in db.value);
    } else {
      forall e | e in Placeholders(template)
        ensures !((forall k :: 0 <= k < |history| ==> history[k].0 != e) && (db.Some? ==> e !in db.value))
      {
        assert e in known;
      }
    }
  }

  /** An entity is unknown iff the tracker never saw it and the database result lacks it. */
  lemma KnownMeaning(history: seq<(string, string)>, db: Option<DbResult>)
    ensures forall e :: e !in Known(history, db) <==>
      (forall k :: 0 <= k < |history| ==> history[k].0 != e) && (db.Some? ==> e !in db.value)
  {
    LastWinsMeaning(history);
  }

  /** `_decode_response`'s slots: the tracker state, overridden by the stringified database result. */
  function DecodeSlots(history: seq<(string, string)>, db: Option<DbResult>): map<string, string> {
    if db.None? then LastWins(history)
    else LastWins(history) + map k | k in db.value :: Str(db.value[k])
  }

  /**
   * Every tracked slot and database key is filled; a database value wins
   * over the tracker, and any other slot keeps the value it was last given.
   */
  lemma DecodeSlotsMeaning(history: seq<(string, string)>, db: Option<DbResult>)
    ensures DecodeSlots(history, db).Keys == Known(history, db)
    ensures db.Some? ==> forall k :: k in db.value ==> DecodeSlots(history, db)[k] == Str(db.value[k])
    ensures forall i :: (0 <= i < |history| && (db.None? || history[i].0 !in db.value)
                         && (forall j :: i < j < |history| ==> history[j].0 != history[i].0))
                         ==> history[i].0 in DecodeSlots(history, db) && DecodeSlots(history, db)[history[i].0] == history[i].1
  {
    forall i | 0 <= i < |history| && (db.None? || history[i].0 !in db.value)
      && (forall j :: i < j < |history| ==> history[j].0 != history[i].0)
      ensures history[i].0 in DecodeSlots(history, db) && DecodeSlots(history, db)[history[i].0] == history[i].1
    {
      LastWinsAt(history, i);
    }
  }


  // ---------------------------------------------------------------------
  // Dialog turns
  // ---------------------------------------------------------------------

  /** A context of a dialog: `text`, and the optional `db_result` and `prev_resp_act`. */
  datatype Turn = Turn(text: string, dbResult: Option<DbResult>, prevRespAct: Option<string>)

  /** `templates.actions.index(act)` on an act that is not an action; `batch[0]` of an empty batch. */
  datatype BotError = ValueError(act: string) | IndexError

  /** A batch of single utterances, or of dialogs. */
  datatype Batch = Utterances(texts: seq<string>) | Dialogs(dialogs: seq<seq<Turn>>)

  /** One reply per utterance, or one list of replies per dialog. */
  datatype Reply = Replies(texts: seq<string>) | DialogReplies(dialogs: seq<seq<string>>)

  /** A bare utterance, as `__call__` hands it to `_infer`: no database result, no forced act. */
  function AsTurns(texts: seq<string>): (ts: seq<Turn>)
    ensures |ts| == |texts|
    ensures forall k :: 0 <= k < |texts| ==> ts[k] == Turn(texts[k], None, None)
  {
    seq(|texts|, k requires 0 <= k < |texts| => Turn(texts[k], None, None))
  }

  /** `db_result` after the turns: the last one a turn supplied, else `start`. */
  function DbAfter(start: Option<DbResult>, turns: seq<Turn>): Option<DbResult> {
    if turns == [] then start
    else if turns[|turns| - 1].dbResult.Some? then turns[|turns| - 1].dbResult
    else DbAfter(start, turns[..|turns| - 1])
  }

  /** Turns without a database result leave `start` in place. */
  lemma {:induction false} DbAfterNone(start: Option<DbResult>, turns: seq<Turn>)
    requires forall k :: 0 <= k < |turns| ==> turns[k].dbResult.None?
    ensures DbAfter(start, turns) == start
  {
    if turns != [] {
      var init := turns[..|turns| - 1];
      assert forall k :: 0 <= k < |init| ==> init[k] == turns[k];
      DbAfterNone(start, init);
    }
  }

  /** Otherwise the database result is that of the last turn that has one. */
  lemma {:induction false} DbAfterLast(start: Option<DbResult>, turns: seq<Turn>, k: nat)
    requires k < |turns| && turns[k].dbResult.Some?
    requires forall j :: k < j < |turns| ==> turns[j].dbResult.None?
    ensures DbAfter(start, turns) == turns[k].dbResult
  {
    if k < |turns| - 1 {
      var init := turns[..|turns| - 1];
      assert forall j :: 0 <= j < |init| ==> init[j] == turns[j];
      DbAfterLast(start, init, k);
    }
  }

  /** A turn whose teacher-forced previous act is not an action. */
  predicate BadAct(actions: seq<string>, t: Turn) {
    t.prevRespAct.Some? && t.prevRespAct.value !in actions
  }

  /** The position of the first turn whose forced act is not an action: where `_infer_dialog` raises, or `|turns|`. */
  function FirstBad(actions: seq<string>, turns: seq<Turn>): (k: nat)
    ensures k <= |turns|
    ensures forall j :: 0 <= j < k ==> !BadAct(actions, turns[j])
    ensures k < |turns| ==> BadAct(actions, turns[k])
  {
    if turns == [] then 0
    else if BadAct(actions, turns[0]) then 0
    else 1 + FirstBad(actions, turns[1..])
  }

  /** A dialog fails exactly where its first bad turn is. */
  lemma FirstBadAt(actions: seq<string>, turns: seq<Turn>, k: nat)
    requires k < |turns| && BadAct(actions, turns[k])
    requires forall j :: 0 <= j < k ==> !BadAct(actions, turns[j])
    ensures FirstBad(actions, turns) == k
  {
  }

  /** The first dialog of a batch that has a bad turn, or `|dialogs|`. */
  function FirstBadDialog(actions: seq<string>, dialogs: seq<seq<Turn>>): (k: nat)
    ensures k <= |dialogs|
    ensures forall i :: 0 <= i < k ==> FirstBad(actions, dialogs[i]) == |dialogs[i]|
    ensures k < |dialogs| ==> FirstBad(actions, dialogs[k]) < |dialogs[k]|
  {
    if dialogs == [] then 0
    else if FirstBad(actions, dialogs[0]) < |dialogs[0]| then 0
    else 1 + FirstBadDialog(actions, dialogs[1..])
  }

  function BatchSize(b: Batch): nat {
    match b
    case Utterances(ts) => |ts|
    case Dialogs(ds) => |ds|
  }

  // ---------------------------------------------------------------------
  // The bot
  // ---------------------------------------------------------------------

  class Bot {
    /** `templates.actions`, one act per action. */
    const actions: seq<string>
    /** `str(templates.templates[a])` for each action `a`. */
    const templates: seq<string>
    const useActionMask: bool
    const tracker: DT.Tracker
    var dbResult: Option<DbResult>
    var prevAction: array<int>

    ghost predicate Valid()
      reads this, tracker, prevAction
    {
      tracker.Valid() && |templates| == |actions| && prevAction.Length == |actions|
    }

    /** `n_actions`: one action per template. */
    function NActions(): (n: nat)
      requires |templates| == |actions|
      ensures n == |actions| == |templates|
    {
      |actions|
    }

    /** `__init__`: no database result yet and a zero previous action. */
    constructor (acts: seq<string>, texts: seq<string>, useMask: bool, t: DT.Tracker)
      requires t.Valid() && |texts| == |acts|
      ensures Valid() && fresh(prevAction)
      ensures actions == acts && templates == texts && useActionMask == useMask && tracker == t
      ensures dbResult == None && prevAction[..] == Zeros(|acts|)
    {
      actions := acts;
      templates := texts;
      useActionMask := useMask;
      tracker := t;
      dbResult := None;
      prevAction := new int[|acts|](_ => 0);
    }

    /** `_encode_response`: the first action with this act, or ValueError when there is none. */
    function EncodeResponse(act: string): (r: Result<nat, BotError>)
      ensures r.Success? <==> act in actions
      ensures r.Success? ==> r.value < |actions| && actions[r.value] == act
      ensures r.Success? ==> forall j :: 0 <= j < r.value ==> actions[j] != act
      ensures r.Failure? ==> r.error == ValueError(act)
    {
      if act in actions then Success(FirstIndex(actions, act)) else Failure(ValueError(act))
    }

    /** The history the tracker gains over the turns, the slot filler reading each text. */
    function Seen(fill: string -> DT.Slots, turns: seq<Turn>): seq<(string, string)> {
      if turns == [] then []
      else Seen(fill, turns[..|turns| - 1]) + DT.Added(tracker.slotNames, fill(turns[|turns| - 1].text))
    }

    /**
     * The replies to the turns from tracker history `h0` and database
     * result `db0`, the network choosing `choices`: each reply renders its
     * action with the slots known after its own turn.
     */
    function TurnReplies(h0: seq<(string, string)>, db0: Option<DbResult>, fill: string -> DT.Slots,
                         generate: (nat, map<string, string>) -> string, turns: seq<Turn>, choices: seq<nat>): (rs: seq<string>)
      requires |choices| == |turns|
      ensures |rs| == |turns|
    {
      if turns == [] then []
      else (TurnReplies(h0, db0, fill, generate, turns[..|turns| - 1], choices[..|turns| - 1])
            + [generate(choices[|turns| - 1], DecodeSlots(h0 + Seen(fill, turns), DbAfter(db0, turns)))])
    }

    /** The `k`-th reply is rendered from the history and database result as they stand after turn `k`. */
    lemma TurnReplyAt(h0: seq<(string, string)>, db0: Option<DbResult>, fill: string -> DT.Slots,
                      generate: (nat, map<string, string>) -> string, turns: seq<Turn>, choices: seq<nat>, k: nat)
      requires |choices| == |turns| && k < |turns|
      ensures TurnReplies(h0, db0, fill, generate, turns, choices)[k]
        == generate(choices[k], DecodeSlots(h0 + Seen(fill, turns[..k + 1]), DbAfter(db0, turns[..k + 1])))
    {
      TurnRepliesPrefix(h0, db0, fill, generate, turns, choices, k + 1, k);
      TurnRepliesLast(h0, db0, fill, generate, turns[..k + 1], choices[..k + 1]);
      assert choices[..k + 1][k] == choices[k];
    }

    /** A reply depends only on the turns up to its own: later turns do not change it. */
    lemma {:induction false} TurnRepliesPrefix(h0: seq<(string, string)>, db0: Option<DbResult>, fill: string -> DT.Slots,
                                               generate: (nat, map<string, string>) -> string, turns: seq<Turn>, choices: seq<nat>,
                                               m: nat, k: nat)
      requires |choices| == |turns| && k < m <= |turns|
      ensures TurnReplies(h0, db0, fill, generate, turns, choices)[k]
        == TurnReplies(h0, db0, fill, generate, turns[..m], choices[..m])[k]
    {
      if m < |turns| {
        var n := |turns| - 1;
        TurnRepliesEarlier(h0, db0, fill, generate, turns, choices, k);
        TurnRepliesPrefix(h0, db0, fill, generate, turns[..n], choices[..n], m, k);
        PrefixOfPrefix(turns, n, m);
        PrefixOfPrefix(choices, n, m);
        TurnRepliesSame(h0, db0, fill, generate, turns[..n][..m], choices[..n][..m], turns[..m], choices[..m], k);
      } else {
        TurnRepliesSame(h0, db0, fill, generate, turns, choices, turns[..m], choices[..m], k);
      }
    }

    lemma TurnRepliesSame(h0: seq<(string, string)>, db0: Option<DbResult>, fill: string -> DT.Slots,
                          generate: (nat, map<string, string>) -> string,
                          turns: seq<Turn>, choices: seq<nat>, turns': seq<Turn>, choices': seq<nat>, k: nat)
      requires turns == turns' && choices == choices' && |choices| == |turns| && k < |turns|
      ensures TurnReplies(h0, db0, fill, generate, turns, choices)[k] == TurnReplies(h0, db0, fill, generate, turns', choices')[k]
    {
    }

    /** The last reply is rendered from the state after all the turns. */
    lemma TurnRepliesLast(h0: seq<(string, string)>, db0: Option<DbResult>, fill: string -> DT.Slots,
                          generate: (nat, map<string, string>) -> string, turns: seq<Turn>, choices: seq<nat>)
      requires |choices| == |turns| && turns != []
      ensures TurnReplies(h0, db0, fill, generate, turns, choices)[|turns| - 1]
        == generate(choices[|turns| - 1], DecodeSlots(h0 + Seen(fill, turns), DbAfter(db0, turns)))
    {
    }

    /** Replies before the last turn's are those of the dialog without it. */
    lemma TurnRepliesEarlier(h0: seq<(string, string)>, db0: Option<DbResult>, fill: string -> DT.Slots,
                             generate: (nat, map<string, string>) -> string, turns: seq<Turn>, choices: seq<nat>, k: nat)
      requires |choices| == |turns| && k < |turns| - 1
      ensures TurnReplies(h0, db0, fill, generate, turns, choices)[k]
        == TurnReplies(h0, db0, fill, generate, turns[..|turns| - 1], choices[..|turns| - 1])[k]
    {
    }

    /** One more turn: the history gains what the slot filler read, and its database result, if any, is taken. */
    lemma SeenStep(fill: string -> DT.Slots, turns: seq<Turn>, db0: Option<DbResult>, k: nat)
      requires k < |turns|
      ensures Seen(fill, turns[..k + 1]) == Seen(fill, turns[..k]) + DT.Added(tracker.slotNames, fill(turns[k].text))
      ensures DbAfter(db0, turns[..k + 1]) == if turns[k].dbResult.Some? then turns[k].dbResult else DbAfter(db0, turns[..k])
    {
      assert turns[..k + 1][..k] == turns[..k];
    }

    /** One more turn adds one reply, from the state after that turn. */
    lemma RepliesStep(h0: seq<(string, string)>, db0: Option<DbResult>, fill: string -> DT.Slots,
                      generate: (nat, map<string, string>) -> string, turns: seq<Turn>, choices: seq<nat>, k: nat)
      requires |choices| == |turns| && k < |turns|
      ensures TurnReplies(h0, db0, fill, generate, turns[..k + 1], choices[..k + 1])
        == TurnReplies(h0, db0, fill, generate, turns[..k], choices[..k])
           + [generate(choices[k], DecodeSlots(h0 + Seen(fill, turns[..k + 1]), DbAfter(db0, turns[..k + 1])))]
    {
      assert turns[..k + 1][..k] == turns[..k];
      assert choices[..k + 1][..k] == choices[..k];
    }

    /** The action masks `train_on_batch` records over a dialog, each after its own turn has been read. */
    function TrainMasks(fill: string -> DT.Slots, turns: seq<Turn>): (ms: seq<seq<int>>)
      ensures |ms| == |turns|
    {
      if turns == [] then []
      else (TrainMasks(fill, turns[..|turns| - 1])
            + [Mask(useActionMask, templates, Known(Seen(fill, turns), DbAfter(None, turns)))])
    }

    /** One more turn records one more mask, from the state after that turn. */
    lemma MasksStep(fill: string -> DT.Slots, turns: seq<Turn>, k: nat)
      requires k < |turns|
      ensures TrainMasks(fill, turns[..k + 1])
        == TrainMasks(fill, turns[..k]) + [Mask(useActionMask, templates, Known(Seen(fill, turns[..k + 1]), DbAfter(None, turns[..k + 1])))]
    {
      assert turns[..k + 1][..k] == turns[..k];
    }

    /** `_action_mask`: a ones vector whose entries for templates needing unknown entities are zeroed. */
    method ActionMask() returns (mask: seq<int>)
      requires Valid()
      ensures mask == Mask(useActionMask, templates, Known(tracker.history, dbResult))
    {
      var m := new int[|templates|](_ => 1);
      if useActionMask {
        var state := tracker.GetState();
        var known := state.Keys + (if dbResult.Some? then dbResult.value.Keys else {});
        var a := 0;
        while a < m.Length
          invariant 0 <= a <= m.Length
          invariant forall j :: 0 <= j < a ==> m[j] == (if Blocked(templates[j], known) then 0 else 1)
          invariant forall j :: a <= j < m.Length ==> m[j] == 1
        {
          MaskAction(m, a, templates[a], known);
          a := a + 1;
        }
      }
      mask := m[..];
    }

    /** The inner loop of `_action_mask` for action `a`: it is zeroed for each unknown entity. */
    static method MaskAction(m: array<int>, a: nat, template: string, known: set<string>)
      requires a < m.Length && m[a] == 1
      modifies m
      ensures m[a] == (if Blocked(template, known) then 0 else 1)
      ensures forall j :: 0 <= j < m.Length && j != a ==> m[j] == old(m[j])
    {
      var todo := set e | e in Placeholders(template);
      while todo != {}
        invariant todo <= set e | e in Placeholders(template)
        invariant forall j :: 0 <= j < m.Length && j != a ==> m[j] == old(m[j])
        invariant m[a] == (if exists e :: e in Placeholders(template) && e !in todo && e !in known then 0 else 1)
        decreases |todo|
      {
        var e :| e in todo;
        if e !in known {
          m[a] := 0;
        }
        todo := todo - {e};
      }
    }

    /** `_decode_response`: the template of the action rendered with the merged slots. */
    method DecodeResponse(actionId: nat, generate: (nat, map<string, string>) -> string) returns (text: string)
      requires Valid() && actionId < |actions|
      ensures text == generate(actionId, DecodeSlots(tracker.history, dbResult))
    {
      var slots := tracker.GetState();
      if dbResult.Some? {
        var db := dbResult.value;
        ghost var base := slots;
        var todo := db.Keys;
        while todo != {}
          invariant todo <= db.Keys
          invariant slots.Keys == base.Keys + (db.Keys - todo)
          invariant forall x :: x in slots ==> slots[x] == if x in db && x !in todo then Str(db[x]) else base[x]
          decreases |todo|
        {
          var k :| k in todo;
          slots := slots[k := Str(db[k])];
          todo := todo - {k};
        }
        assert slots == base + map k | k in db :: Str(db[k]);
      }
      text := generate(actionId, slots);
    }

    /** `prev_action *= 0; prev_action[id] = 1`. */
    method SetPrevAction(id: nat)
      requires Valid() && id < |actions|
      modifies prevAction
      ensures prevAction[..] == OneHot(|actions|, id)
    {
      var i := 0;
      while i < prevAction.Length
        invariant 0 <= i <= prevAction.Length
        invariant forall j :: 0 <= j < i ==> prevAction[j] == 0
      {
        prevAction[i] := 0;
        i := i + 1;
      }
      prevAction[id] := 1;
    }

    /** `reset`: the tracker's state and the database result are cleared and the previous action zeroed. */
    method Reset()
      requires Valid()
      modifies this, tracker
      ensures Valid() && fresh(prevAction)
      ensures tracker.history == [] && dbResult == None && prevAction[..] == Zeros(|actions|)
    {
      tracker.ResetState();
      dbResult := None;
      prevAction := new int[|actions|](_ => 0);
    }

    /** What `_encode_context` changes: the tracker reads the slot filler's output for the utterance. */
    method Observe(text: string, fill: string -> DT.Slots)
      requires Valid()
      modifies tracker
      ensures Valid()
      ensures tracker.history == old(tracker.history) + DT.Added(tracker.slotNames, fill(text))
    {
      tracker.UpdateState(fill(text));
    }

    /**
     * `_infer` with the non-probabilistic previous action: the tracker
     * observes the utterance, the network is shown the action mask (computed
     * before the turn's database result is taken) and picks `choice`, which
     * becomes the one-hot previous action and is decoded into the reply.
     */
    method Infer(text: string, db: Option<DbResult>, fill: string -> DT.Slots, choice: nat,
                 generate: (nat, map<string, string>) -> string) returns (mask: seq<int>, reply: string)
      requires Valid() && choice < |actions|
      modifies this, tracker, prevAction
      ensures Valid() && prevAction == old(prevAction)
      ensures tracker.history == old(tracker.history) + DT.Added(tracker.slotNames, fill(text))
      ensures mask == Mask(useActionMask, templates, Known(tracker.history, old(dbResult)))
      ensures dbResult == (if db.Some? then db else old(dbResult))
      ensures prevAction[..] == OneHot(|actions|, choice)
      ensures reply == generate(choice, DecodeSlots(tracker.history, dbResult))
    {
      Observe(text, fill);
      mask := ActionMask();
      if db.Some? {
        dbResult := db;
      }
      SetPrevAction(choice);
      reply := DecodeResponse(choice, generate);
    }

    /** One turn of `_infer_dialog`: the forced previous act, when given, must be an action; then `_infer`. */
    method InferTurn(t: Turn, fill: string -> DT.Slots, choice: nat,
                     generate: (nat, map<string, string>) -> string) returns (r: Result<string, BotError>)
      requires Valid() && choice < |actions|
      modifies this, tracker, prevAction
      ensures Valid() && prevAction == old(prevAction)
      ensures r.Failure? <==> BadAct(actions, t)
      ensures r.Failure? ==> r.error == ValueError(t.prevRespAct.value)
      ensures r.Failure? ==>
        tracker.history == old(tracker.history) && dbResult == old(dbResult) && prevAction[..] == old(prevAction[..])
      ensures r.Success? ==>
        && tracker.history == old(tracker.history) + DT.Added(tracker.slotNames, fill(t.text))
        && dbResult == (if t.dbResult.Some? then t.dbResult else old(dbResult))
        && prevAction[..] == OneHot(|actions|, choice)
        && r.value == generate(choice, DecodeSlots(tracker.history, dbResult))
    {
      if t.prevRespAct.Some? {
        var id := EncodeResponse(t.prevRespAct.value);
        if id.Failure? {
          return Failure(id.error);
        }
        SetPrevAction(id.value);
      }
      var mask, reply := Infer(t.text, t.dbResult, fill, choice, generate);
      r := Success(reply);
    }

    /** `_infer` over a list of turns, continuing from the current state, each turn picking its own choice. */
    method InferTurns(turns: seq<Turn>, fill: string -> DT.Slots, choices: seq<nat>,
                      generate: (nat, map<string, string>) -> string) returns (r: Result<seq<string>, BotError>)
      requires Valid() && |choices| == |turns| && forall k :: 0 <= k < |choices| ==> choices[k] < |actions|
      modifies this, tracker, prevAction
      ensures Valid() && prevAction == old(prevAction)
      ensures r.Failure? <==> exists k :: 0 <= k < |turns| && BadAct(actions, turns[k])
      ensures r.Failure? ==> r.error.ValueError?
      ensures r.Failure? ==>
        var k := FirstBad(actions, turns);
        && tracker.history == old(tracker.history) + Seen(fill, turns[..k])
        && dbResult == DbAfter(old(dbResult), turns[..k])
        && prevAction[..] == LastPrev(|actions|, old(prevAction[..]), choices[..k])
      ensures r.Success? ==>
        && r.value == TurnReplies(old(tracker.history), old(dbResult), fill, generate, turns, choices)
        && tracker.history == old(tracker.history) + Seen(fill, turns)
        && dbResult == DbAfter(old(dbResult), turns)
        && prevAction[..] == LastPrev(|actions|, old(prevAction[..]), choices)
    {
      ghost var h0 := tracker.history;
      ghost var db0 := dbResult;
      ghost var p0 := prevAction[..];
      var replies: seq<string> := [];
      var k: nat := 0;
      assert turns[..0] == [] && choices[..0] == [];
      assert h0 + [] == h0;
      while k < |turns|
        invariant k <= |turns|
        invariant Valid() && prevAction == old(prevAction)
        invariant InferredUpTo(h0, db0, fill, generate, turns, choices, k, replies)
        invariant prevAction[..] == LastPrev(|actions|, p0, choices[..k])
      {
        var res := InferNext(turns, fill, choices, generate, k, h0, db0, p0, replies);
        if res.Failure? {
          FirstBadAt(actions, turns, k);
          return Failure(res.error);
        }
        replies := res.value;
        k := k + 1;
      }
      assert turns[..k] == turns;
      assert choices[..k] == choices;
      r := Success(replies);
    }

    /** The first `k` turns all have a known forced act, and the state and replies are those after them. */
    ghost predicate InferredUpTo(h0: seq<(string, string)>, db0: Option<DbResult>, fill: string -> DT.Slots,
                                 generate: (nat, map<string, string>) -> string, turns: seq<Turn>, choices: seq<nat>,
                                 k: nat, replies: seq<string>)
      requires k <= |turns| && |choices| == |turns|
      reads this, tracker
    {
      && (forall j :: 0 <= j < k ==> !BadAct(actions, turns[j]))
      && tracker.history == h0 + Seen(fill, turns[..k])
      && dbResult == DbAfter(db0, turns[..k])
      && replies == TurnReplies(h0, db0, fill, generate, turns[..k], choices[..k])
    }

    /** The loop body of `InferTurns`: turn `k` extends the replies to the first `k` turns by one. */
    method InferNext(turns: seq<Turn>, fill: string -> DT.Slots, choices: seq<nat>,
                     generate: (nat, map<string, string>) -> string, k: nat,
                     ghost h0: seq<(string, string)>, ghost db0: Option<DbResult>, ghost p0: seq<int>,
                     replies: seq<string>)
      returns (r: Result<seq<string>, BotError>)
      requires Valid() && |choices| == |turns| && k < |turns| && choices[k] < |actions|
      requires InferredUpTo(h0, db0, fill, generate, turns, choices, k, replies)
      modifies this, tracker, prevAction
      ensures Valid() && prevAction == old(prevAction)
      ensures r.Failure? <==> BadAct(actions, turns[k])
      ensures r.Failure? ==> r.error.ValueError?
      ensures r.Failure? ==>
        tracker.history == old(tracker.history) && dbResult == old(dbResult) && prevAction[..] == old(prevAction[..])
      ensures r.Success? ==> InferredUpTo(h0, db0, fill, generate, turns, choices, k + 1, r.value)
      ensures r.Success? ==> prevAction[..] == OneHot(|actions|, choices[k])
      ensures r.Success? ==> prevAction[..] == LastPrev(|actions|, p0, choices[..k + 1])
    {
      var res := InferTurn(turns[k], fill, choices[k], generate);
      if res.Failure? {
        return Failure(res.error);
      }
      SeenStep(fill, turns, db0, k);
      ConcatAssoc(h0, Seen(fill, turns[..k]), DT.Added(tracker.slotNames, fill(turns[k].text)));
      RepliesStep(h0, db0, fill, generate, turns, choices, k);
      assert choices[..k + 1][k] == choices[k];
      r := Success(replies + [res.value]);
    }

    /** `_infer_dialog`: reset, then infer the turns in order. */
    method InferDialog(turns: seq<Turn>, fill: string -> DT.Slots, choices: seq<nat>,
                       generate: (nat, map<string, string>) -> string) returns (r: Result<seq<string>, BotError>)
      requires Valid() && |choices| == |turns| && forall k :: 0 <= k < |choices| ==> choices[k] < |actions|
      modifies this, tracker
      ensures Valid()
      ensures r.Failure? <==> exists k :: 0 <= k < |turns| && BadAct(actions, turns[k])
      ensures r.Failure? ==> r.error.ValueError?
      ensures r.Failure? ==> var k := FirstBad(actions, turns); LeftBy(turns[..k], fill, choices[..k])
      ensures r.Success? ==> r.value == TurnReplies([], None, fill, generate, turns, choices)
      ensures r.Success? ==> tracker.history == Seen(fill, turns) && dbResult == DbAfter(None, turns)
      ensures r.Success? ==> prevAction[..] == LastPrev(|actions|, Zeros(|actions|), choices)
    {
      Reset();
      r := InferTurns(turns, fill, choices, generate);
    }

    /**
     * `__call__`: a batch of utterances is inferred one by one from the
     * current state; every dialog of a batch of dialogs from a reset state.
     */
    method Call(batch: Batch, fill: string -> DT.Slots, choices: seq<seq<nat>>,
                generate: (nat, map<string, string>) -> string) returns (r: Result<Reply, BotError>)
      requires Valid() && |choices| == BatchSize(batch)
      requires forall k, j :: 0 <= k < |choices| && 0 <= j < |choices[k]| ==> choices[k][j] < |actions|
      requires batch.Utterances? ==> forall k :: 0 <= k < |choices| ==> |choices[k]| == 1
      requires batch.Dialogs? ==> forall k :: 0 <= k < |choices| ==> |choices[k]| == |batch.dialogs[k]|
      modifies this, tracker, prevAction
      ensures Valid()
      ensures BatchSize(batch) == 0 ==>
        && r == Failure(IndexError)
        && tracker.history == old(tracker.history) && dbResult == old(dbResult)
        && prevAction == old(prevAction) && prevAction[..] == old(prevAction[..])
      ensures batch.Utterances? && batch.texts != [] ==>
        r == Success(Replies(TurnReplies(old(tracker.history), old(dbResult), fill, generate,
                                         AsTurns(batch.texts), Firsts(choices))))
      ensures batch.Utterances? && batch.texts != [] ==>
        && tracker.history == old(tracker.history) + Seen(fill, AsTurns(batch.texts))
        && dbResult == old(dbResult)
        && prevAction[..] == OneHot(|actions|, choices[|choices| - 1][0])
      ensures batch.Dialogs? && batch.dialogs != [] ==>
        && (r.Failure? <==> exists k, j :: 0 <= k < |batch.dialogs| && 0 <= j < |batch.dialogs[k]| && BadAct(actions, batch.dialogs[k][j]))
        && (r.Failure? ==> r.error.ValueError? && StoppedIn(batch.dialogs, fill, choices))
        && (r.Success? ==> r.value.DialogReplies? && |r.value.dialogs| == |batch.dialogs|)
        && (r.Success? ==> forall k :: 0 <= k < |batch.dialogs| ==>
              r.value.dialogs[k] == TurnReplies([], None, fill, generate, batch.dialogs[k], choices[k]))
        && (r.Success? ==> LeftBy(batch.dialogs[|batch.dialogs| - 1], fill, choices[|batch.dialogs| - 1]))
    {
      if BatchSize(batch) == 0 {
        return Failure(IndexError);
      }
      if batch.Utterances? {
        r := CallUtterances(batch.texts, fill, choices, generate);
      } else {
        r := CallDialogs(batch.dialogs, fill, choices, generate);
      }
    }

    /** The utterance branch of `__call__`: one reply per utterance, continuing from the current state. */
    method CallUtterances(texts: seq<string>, fill: string -> DT.Slots, choices: seq<seq<nat>>,
                          generate: (nat, map<string, string>) -> string) returns (r: Result<Reply, BotError>)
      requires Valid() && texts != [] && |choices| == |texts|
      requires forall k :: 0 <= k < |choices| ==> |choices[k]| == 1 && choices[k][0] < |actions|
      modifies this, tracker, prevAction
      ensures Valid() && prevAction == old(prevAction)
      ensures r == Success(Replies(TurnReplies(old(tracker.history), old(dbResult), fill, generate,
                                               AsTurns(texts), Firsts(choices))))
      ensures && tracker.history == old(tracker.history) + Seen(fill, AsTurns(texts))
              && dbResult == old(dbResult)
              && prevAction[..] == OneHot(|actions|, choices[|choices| - 1][0])
    {
      ghost var h0, db0 := tracker.history, dbResult;
      var turns, firsts := AsTurns(texts), Firsts(choices);
      var res := InferTurns(turns, fill, firsts, generate);
      assert res.Success? by {
        assert forall k :: 0 <= k < |turns| ==> !BadAct(actions, turns[k]);
      }
      DbAfterNone(db0, turns);
      assert firsts[|firsts| - 1] == choices[|choices| - 1][0];
      r := Success(Replies(res.value));
    }

    /** The dialogs before `|out|` had only known acts and `out` holds their replies. */
    ghost predicate RepliedUpTo(dialogs: seq<seq<Turn>>, choices: seq<seq<nat>>, fill: string -> DT.Slots,
                                generate: (nat, map<string, string>) -> string, out: seq<seq<string>>)
    {
      && |out| <= |dialogs| && |out| <= |choices|
      && forall i :: 0 <= i < |out| ==>
           && (forall j :: 0 <= j < |dialogs[i]| ==> !BadAct(actions, dialogs[i][j]))
           && |choices[i]| == |dialogs[i]|
           && out[i] == TurnReplies([], None, fill, generate, dialogs[i], choices[i])
    }

    lemma RepliedStep(dialogs: seq<seq<Turn>>, choices: seq<seq<nat>>, fill: string -> DT.Slots,
                      generate: (nat, map<string, string>) -> string, out: seq<seq<string>>, v: seq<string>)
      requires |out| < |dialogs| && |out| < |choices| && RepliedUpTo(dialogs, choices, fill, generate, out)
      requires forall j :: 0 <= j < |dialogs[|out|]| ==> !BadAct(actions, dialogs[|out|][j])
      requires |choices[|out|]| == |dialogs[|out|]|
      requires v == TurnReplies([], None, fill, generate, dialogs[|out|], choices[|out|])
      ensures RepliedUpTo(dialogs, choices, fill, generate, out + [v])
    {
      var o := out + [v];
      forall i | 0 <= i < |o|
        ensures (forall j :: 0 <= j < |dialogs[i]| ==> !BadAct(actions, dialogs[i][j]))
                && |choices[i]| == |dialogs[i]|
                && o[i] == TurnReplies([], None, fill, generate, dialogs[i], choices[i])
      {
        if i < |out| {
          assert o[i] == out[i];
        }
      }
    }

    /** The loop body of `CallDialogs`: dialog `|out|` is inferred from a reset state and its replies appended. */
    method CallDialogNext(dialogs: seq<seq<Turn>>, fill: string -> DT.Slots, choices: seq<seq<nat>>,
                          generate: (nat, map<string, string>) -> string, out: seq<seq<string>>)
      returns (r: Result<seq<seq<string>>, BotError>)
      requires Valid() && |out| < |dialogs| && |choices| == |dialogs|
      requires RepliedUpTo(dialogs, choices, fill, generate, out)
      requires forall k :: 0 <= k < |choices| ==> |choices[k]| == |dialogs[k]|
      requires forall j :: 0 <= j < |choices[|out|]| ==> choices[|out|][j] < |actions|
      modifies this, tracker
      ensures Valid()
      ensures r.Failure? <==> exists j :: 0 <= j < |dialogs[|out|]| && BadAct(actions, dialogs[|out|][j])
      ensures r.Failure? ==> r.error.ValueError? && StoppedIn(dialogs, fill, choices)
      ensures r.Success? ==>
        && |r.value| == |out| + 1 && RepliedUpTo(dialogs, choices, fill, generate, r.value)
        && LeftBy(dialogs[|out|], fill, choices[|out|])
    {
      var k := |out|;
      var res := InferDialog(dialogs[k], fill, choices[k], generate);
      if res.Failure? {
        FirstBadDialogAt(dialogs, choices, fill, generate, out);
        return Failure(res.error);
      }
      RepliedStep(dialogs, choices, fill, generate, out, res.value);
      r := Success(out + [res.value]);
    }

    /** The state `_infer_dialog` leaves after the turns of a dialog, with the actions chosen at them. */
    ghost predicate LeftBy(turns: seq<Turn>, fill: string -> DT.Slots, choices: seq<nat>)
      reads this, tracker, prevAction
    {
      && tracker.history == Seen(fill, turns)
      && dbResult == DbAfter(None, turns)
      && prevAction[..] == LastPrev(|actions|, Zeros(|actions|), choices)
    }

    /** The state `__call__` leaves when a dialog raises: that of the first bad dialog up to its first bad turn. */
    ghost predicate StoppedIn(dialogs: seq<seq<Turn>>, fill: string -> DT.Slots, choices: seq<seq<nat>>)
      requires |choices| == |dialogs| && forall k :: 0 <= k < |choices| ==> |choices[k]| == |dialogs[k]|
      reads this, tracker, prevAction
    {
      var k := FirstBadDialog(actions, dialogs);
      && k < |dialogs|
      && var j := FirstBad(actions, dialogs[k]);
         LeftBy(dialogs[k][..j], fill, choices[k][..j])
    }

    /** The dialog branch of `__call__`: each dialog is inferred from a reset state. */
    method CallDialogs(dialogs: seq<seq<Turn>>, fill: string -> DT.Slots, choices: seq<seq<nat>>,
                       generate: (nat, map<string, string>) -> string) returns (r: Result<Reply, BotError>)
      requires Valid() && |choices| == |dialogs|
      requires forall k, j :: 0 <= k < |choices| && 0 <= j < |choices[k]| ==> choices[k][j] < |actions|
      requires forall k :: 0 <= k < |choices| ==> |choices[k]| == |dialogs[k]|
      modifies this, tracker
      ensures Valid()
      ensures r.Failure? <==> exists k, j :: 0 <= k < |dialogs| && 0 <= j < |dialogs[k]| && BadAct(actions, dialogs[k][j])
      ensures r.Failure? ==> r.error.ValueError? && StoppedIn(dialogs, fill, choices)
      ensures r.Success? ==> r.value.DialogReplies? && |r.value.dialogs| == |dialogs|
      ensures r.Success? ==> forall k :: 0 <= k < |dialogs| ==>
        r.value.dialogs[k] == TurnReplies([], None, fill, generate, dialogs[k], choices[k])
      ensures r.Success? && dialogs != [] ==> LeftBy(dialogs[|dialogs| - 1], fill, choices[|dialogs| - 1])
    {
      var out: seq<seq<string>> := [];
      var k: nat := 0;
      while k < |dialogs|
        invariant 0 <= k <= |dialogs|
        invariant Valid()
        invariant |out| == k && RepliedUpTo(dialogs, choices, fill, generate, out)
        invariant k > 0 ==> LeftBy(dialogs[k - 1], fill, choices[k - 1])
      {
        var res := CallDialogNext(dialogs, fill, choices, generate, out);
        if res.Failure? {
          BadDialog(dialogs, k);
          return Failure(res.error);
        }
        out := res.value;
        k := k + 1;
      }
      RepliedAll(dialogs, choices, fill, generate, out);
      r := Success(DialogReplies(out));
    }

    /** The dialogs already replied to had no bad turn, so a failure at the next one is the batch's first. */
    lemma FirstBadDialogAt(dialogs: seq<seq<Turn>>, choices: seq<seq<nat>>, fill: string -> DT.Slots,
                           generate: (nat, map<string, string>) -> string, out: seq<seq<string>>)
      requires |out| < |dialogs| && RepliedUpTo(dialogs, choices, fill, generate, out)
      requires exists j :: 0 <= j < |dialogs[|out|]| && BadAct(actions, dialogs[|out|][j])
      ensures FirstBadDialog(actions, dialogs) == |out|
    {
      var k := FirstBadDialog(actions, dialogs);
      assert forall i :: 0 <= i < |out| ==> FirstBad(actions, dialogs[i]) == |dialogs[i]|;
      var j :| 0 <= j < |dialogs[|out|]| && BadAct(actions, dialogs[|out|][j]);
      assert FirstBad(actions, dialogs[|out|]) <= j;
    }

    /** A dialog with an unknown act is a batch with an unknown act. */
    lemma BadDialog(dialogs: seq<seq<Turn>>, k: nat)
      requires k < |dialogs| && exists j :: 0 <= j < |dialogs[k]| && BadAct(actions, dialogs[k][j])
      ensures exists k, j :: 0 <= k < |dialogs| && 0 <= j < |dialogs[k]| && BadAct(actions, dialogs[k][j])
    {
      var j :| 0 <= j < |dialogs[k]| && BadAct(actions, dialogs[k][j]);
    }

    /** Once every dialog is replied to, no act was unknown and the replies are those of each dialog. */
    lemma RepliedAll(dialogs: seq<seq<Turn>>, choices: seq<seq<nat>>, fill: string -> DT.Slots,
                     generate: (nat, map<string, string>) -> string, out: seq<seq<string>>)
      requires |out| == |dialogs| && RepliedUpTo(dialogs, choices, fill, generate, out)
      ensures !exists k, j :: 0 <= k < |dialogs| && 0 <= j < |dialogs[k]| && BadAct(actions, dialogs[k][j])
      ensures forall k :: 0 <= k < |dialogs| ==> out[k] == TurnReplies([], None, fill, generate, dialogs[k], choices[k])
    {
    }

    /**
     * One turn of `train_on_batch`: the tracker reads the utterance, the
     * turn's database result is taken, the response's act is teacher-forced
     * as the previous action and the action mask recorded.
     */
    method TrainTurn(t: Turn, response: string, fill: string -> DT.Slots) returns (r: Result<(nat, seq<int>), BotError>)
      requires Valid()
      modifies this, tracker, prevAction
      ensures Valid() && prevAction == old(prevAction)
      ensures tracker.history == old(tracker.history) + DT.Added(tracker.slotNames, fill(t.text))
      ensures dbResult == (if t.dbResult.Some? then t.dbResult else old(dbResult))
      ensures r.Failure? <==> response !in actions
      ensures r.Failure? ==> r.error == ValueError(response)
      ensures r.Failure? ==> prevAction[..] == old(prevAction[..])
      ensures r.Success? ==>
        && r.value.0 == FirstIndex(actions, response)
        && prevAction[..] == OneHot(|actions|, r.value.0)
        && r.value.1 == Mask(useActionMask, templates, Known(tracker.history, dbResult))
    {
      Observe(t.text, fill);
      if t.dbResult.Some? {
        dbResult := t.dbResult;
      }
      var id := EncodeResponse(response);
      if id.Failure? {
        return Failure(id.error);
      }
      SetPrevAction(id.value);
      var mask := ActionMask();
      r := Success((id.value, mask));
    }

    /** Every response is one of the actions. */
    predicate AllActions(responses: seq<string>) {
      forall i :: 0 <= i < |responses| ==> responses[i] in actions
    }

    /** The position of the first response that is not an action, or `|responses|`. */
    function FirstUnknown(responses: seq<string>): (j: nat)
      ensures j <= |responses|
      ensures forall i :: 0 <= i < j ==> responses[i] in actions
      ensures j < |responses| ==> responses[j] !in actions
    {
      if responses == [] then 0
      else if responses[0] !in actions then 0
      else 1 + FirstUnknown(responses[1..])
    }

    /** Known responses up to an unknown one at `j` put the first unknown one of any longer prefix at `j`. */
    lemma FirstUnknownAt(responses: seq<string>, n: nat, j: nat)
      requires j < n <= |responses| && AllActions(responses[..j]) && responses[j] !in actions
      ensures FirstUnknown(responses[..n]) == j
    {
      var f := FirstUnknown(responses[..n]);
      assert forall i :: 0 <= i < j ==> responses[..n][i] == responses[..j][i];
      assert responses[..n][j] == responses[j];
    }

    /** The action ids of the responses, each the first position of that act among the actions. */
    function ActionIds(responses: seq<string>): (ids: seq<nat>)
      requires AllActions(responses)
      ensures |ids| == |responses|
      ensures forall i :: 0 <= i < |ids| ==>
        && ids[i] < |actions| && actions[ids[i]] == responses[i]
        && forall j :: 0 <= j < ids[i] ==> actions[j] != responses[i]
    {
      seq(|responses|, i requires 0 <= i < |responses| => FirstIndex(actions, responses[i]))
    }

    /** The ids of the first `k` responses and one more. */
    lemma ActionIdsStep(responses: seq<string>, k: nat)
      requires k < |responses| && AllActions(responses[..k]) && responses[k] in actions
      ensures AllActions(responses[..k + 1])
      ensures ActionIds(responses[..k + 1]) == ActionIds(responses[..k]) + [FirstIndex(actions, responses[k])]
    {
      assert forall i :: 0 <= i < k ==> responses[..k][i] == responses[..k + 1][i];
    }

    /** The loop body of `TrainDialog`: turn `j` extends what was recorded for the first `j` turns by one. */
    method TrainNext(contexts: seq<Turn>, responses: seq<string>, fill: string -> DT.Slots, j: nat,
                     ids: seq<nat>, masks: seq<seq<int>>)
      returns (r: Result<(seq<nat>, seq<seq<int>>), BotError>)
      requires Valid() && j < |contexts| && j < |responses|
      requires tracker.history == Seen(fill, contexts[..j]) && dbResult == DbAfter(None, contexts[..j])
      requires AllActions(responses[..j]) && ids == ActionIds(responses[..j]) && masks == TrainMasks(fill, contexts[..j])
      requires prevAction[..] == LastPrev(|actions|, Zeros(|actions|), ids)
      modifies this, tracker, prevAction
      ensures Valid() && prevAction == old(prevAction)
      ensures r.Failure? <==> responses[j] !in actions
      ensures r.Failure? ==> r.error.ValueError?
      ensures r.Failure? ==>
        && tracker.history == Seen(fill, contexts[..j + 1]) && dbResult == DbAfter(None, contexts[..j + 1])
        && prevAction[..] == old(prevAction[..])
      ensures r.Failure? ==> TrainStopped(contexts, responses, fill)
      ensures r.Success? ==>
        && tracker.history == Seen(fill, contexts[..j + 1]) && dbResult == DbAfter(None, contexts[..j + 1])
        && AllActions(responses[..j + 1])
        && r.value.0 == ActionIds(responses[..j + 1]) && r.value.1 == TrainMasks(fill, contexts[..j + 1])
        && prevAction[..] == OneHot(|actions|, FirstIndex(actions, responses[j]))
    {
      var res := TrainTurn(contexts[j], responses[j], fill);
      SeenStep(fill, contexts, None, j);
      if res.Failure? {
        TrainStoppedAt(contexts, responses, fill, j, ids);
        return Failure(res.error);
      }
      MasksStep(fill, contexts, j);
      ActionIdsStep(responses, j);
      r := Success((ids + [res.value.0], masks + [res.value.1]));
    }

    /**
     * The state one dialog of `train_on_batch` leaves: the tracker and database
     * result after its paired turns, and the teacher-forced last action `ids` ends with.
     */
    ghost predicate TrainedState(contexts: seq<Turn>, responses: seq<string>, fill: string -> DT.Slots, ids: seq<nat>)
      reads this, tracker, prevAction
    {
      var n := Min(|contexts|, |responses|);
      && tracker.history == Seen(fill, contexts[..n])
      && dbResult == DbAfter(None, contexts[..n])
      && prevAction[..] == LastPrev(|actions|, Zeros(|actions|), ids)
    }

    /**
     * The state one dialog of `train_on_batch` leaves when it raises: the
     * tracker and database result include the turn of the first unknown
     * response, and the previous action is still the one forced before it.
     */
    ghost predicate TrainStopped(contexts: seq<Turn>, responses: seq<string>, fill: string -> DT.Slots)
      reads this, tracker, prevAction
    {
      var n := Min(|contexts|, |responses|);
      var j := FirstUnknown(responses[..n]);
      && j < n
      && tracker.history == Seen(fill, contexts[..j + 1])
      && dbResult == DbAfter(None, contexts[..j + 1])
      && AllActions(responses[..j])
      && prevAction[..] == LastPrev(|actions|, Zeros(|actions|), ActionIds(responses[..j]))
    }

    /** The state after the turn of the first unknown response is the one a failing dialog leaves. */
    lemma TrainStoppedAt(contexts: seq<Turn>, responses: seq<string>, fill: string -> DT.Slots, j: nat, ids: seq<nat>)
      requires j < |contexts| && j < |responses| && responses[j] !in actions
      requires AllActions(responses[..j]) && ids == ActionIds(responses[..j])
      requires tracker.history == Seen(fill, contexts[..j + 1]) && dbResult == DbAfter(None, contexts[..j + 1])
      requires prevAction[..] == LastPrev(|actions|, Zeros(|actions|), ids)
      ensures TrainStopped(contexts, responses, fill)
    {
      FirstUnknownAt(responses, Min(|contexts|, |responses|), j);
    }

    /** One dialog of `train_on_batch`, over the pairs of `zip(contexts, responses)`. */
    method TrainDialog(contexts: seq<Turn>, responses: seq<string>, fill: string -> DT.Slots)
      returns (r: Result<(seq<nat>, seq<seq<int>>), BotError>)
      requires Valid()
      modifies this, tracker
      ensures Valid()
      ensures r.Failure? <==> !AllActions(responses[..Min(|contexts|, |responses|)])
      ensures r.Failure? ==> r.error.ValueError? && TrainStopped(contexts, responses, fill)
      ensures r.Success? ==> Trained(contexts, responses, fill, r.value)
      ensures r.Success? ==> TrainedState(contexts, responses, fill, r.value.0)
    {
      Reset();
      var n := Min(|contexts|, |responses|);
      var ids: seq<nat> := [];
      var masks: seq<seq<int>> := [];
      var j: nat := 0;
      assert contexts[..0] == [] && responses[..0] == [];
      while j < n
        invariant j <= n
        invariant Valid() && fresh(prevAction)
        invariant tracker.history == Seen(fill, contexts[..j]) && dbResult == DbAfter(None, contexts[..j])
        invariant AllActions(responses[..j]) && ids == ActionIds(responses[..j]) && masks == TrainMasks(fill, contexts[..j])
        invariant prevAction[..] == LastPrev(|actions|, Zeros(|actions|), ids)
      {
        var res := TrainNext(contexts, responses, fill, j, ids, masks);
        if res.Failure? {
          return Failure(res.error);
        }
        ids, masks := res.value.0, res.value.1;
        j := j + 1;
      }
      r := Success((ids, masks));
    }

    /**
     * `train_on_batch`: every dialog is replayed from a reset state and handed
     * to the network, until one raises. `trained` is what the network received,
     * per dialog its action ids and masks; `err` is the error raised, if any.
     */
    method TrainOnBatch(x: seq<seq<Turn>>, y: seq<seq<string>>, fill: string -> DT.Slots)
      returns (trained: seq<(seq<nat>, seq<seq<int>>)>, err: Option<BotError>)
      requires Valid()
      modifies this, tracker, prevAction
      ensures Valid()
      ensures |trained| <= Min(|x|, |y|)
      ensures forall k :: 0 <= k < |trained| ==> Trained(x[k], y[k], fill, trained[k])
      ensures err.Some? <==> exists k :: 0 <= k < Min(|x|, |y|) && !AllActions(y[k][..Min(|x[k]|, |y[k]|)])
      ensures err.None? ==> |trained| == Min(|x|, |y|)
      ensures err.Some? ==>
        && |trained| < Min(|x|, |y|) && err.value.ValueError?
        && !AllActions(y[|trained|][..Min(|x[|trained|]|, |y[|trained|]|)])
        && TrainStopped(x[|trained|], y[|trained|], fill)
      ensures err.None? && trained == [] ==>
        tracker.history == old(tracker.history) && dbResult == old(dbResult) && prevAction == old(prevAction)
      ensures err.None? && trained != [] ==>
        var last := |trained| - 1;
        TrainedState(x[last], y[last], fill, trained[last].0)
    {
      trained, err := [], None;
      // an empty batch leaves the bot as it was
      if Min(|x|, |y|) > 0 {
        var k: nat := 0;
        while k < Min(|x|, |y|)
          invariant 0 <= k <= Min(|x|, |y|)
          invariant Valid()
          invariant |trained| == k && TrainedUpTo(x, y, fill, trained)
          invariant k > 0 ==> TrainedState(x[k - 1], y[k - 1], fill, trained[k - 1].0)
        {
          var res := TrainBatchNext(x, y, fill, trained);
          if res.Failure? {
            BadDialogInBatch(x, y, k);
            assert TrainStopped(x[|trained|], y[|trained|], fill);
            err := Some(res.error);
            break;
          }
          trained := res.value;
          k := k + 1;
        }
        if err.None? {
          TrainedUpToAll(x, y, fill, trained);
        }
      }
    }

    /** Every dialog trained on had only known responses. */
    lemma TrainedUpToAll(x: seq<seq<Turn>>, y: seq<seq<string>>, fill: string -> DT.Slots,
                         out: seq<(seq<nat>, seq<seq<int>>)>)
      requires TrainedUpTo(x, y, fill, out)
      ensures forall k :: 0 <= k < |out| ==> AllActions(y[k][..Min(|x[k]|, |y[k]|)])
      ensures |out| == Min(|x|, |y|) ==> !exists k :: 0 <= k < Min(|x|, |y|) && !AllActions(y[k][..Min(|x[k]|, |y[k]|)])
    {
    }

    /** A dialog with an unknown response makes the batch fail. */
    lemma BadDialogInBatch(x: seq<seq<Turn>>, y: seq<seq<string>>, k: nat)
      requires k < Min(|x|, |y|) && !AllActions(y[k][..Min(|x[k]|, |y[k]|)])
      ensures exists k :: 0 <= k < Min(|x|, |y|) && !AllActions(y[k][..Min(|x[k]|, |y[k]|)])
    {
    }

    /** The dialogs before `|out|` were trained on and `out` holds what went to the network for them. */
    ghost predicate TrainedUpTo(x: seq<seq<Turn>>, y: seq<seq<string>>, fill: string -> DT.Slots,
                                out: seq<(seq<nat>, seq<seq<int>>)>)
    {
      |out| <= |x| && |out| <= |y| && forall i :: 0 <= i < |out| ==> Trained(x[i], y[i], fill, out[i])
    }

    /** The loop body of `TrainOnBatch`: dialog `|out|` is replayed and its record appended. */
    method TrainBatchNext(x: seq<seq<Turn>>, y: seq<seq<string>>, fill: string -> DT.Slots,
                          out: seq<(seq<nat>, seq<seq<int>>)>)
      returns (r: Result<seq<(seq<nat>, seq<seq<int>>)>, BotError>)
      requires Valid() && |out| < |x| && |out| < |y| && TrainedUpTo(x, y, fill, out)
      modifies this, tracker
      ensures Valid()
      ensures r.Failure? <==> !AllActions(y[|out|][..Min(|x[|out|]|, |y[|out|]|)])
      ensures r.Failure? ==> r.error.ValueError? && TrainStopped(x[|out|], y[|out|], fill)
      ensures r.Success? ==>
        && |r.value| == |out| + 1 && TrainedUpTo(x, y, fill, r.value)
        && TrainedState(x[|out|], y[|out|], fill, r.value[|out|].0)
    {
      var k := |out|;
      var res := TrainDialog(x[k], y[k], fill);
      if res.Failure? {
        return Failure(res.error);
      }
      TrainedStep(x, y, fill, out, k, res.value);
      r := Success(out + [res.value]);
      assert r.value[k] == res.value;
    }

    lemma TrainedStep(x: seq<seq<Turn>>, y: seq<seq<string>>, fill: string -> DT.Slots,
                      out: seq<(seq<nat>, seq<seq<int>>)>, k: nat, v: (seq<nat>, seq<seq<int>>))
      requires k < |x| && k < |y| && |out| == k
      requires forall i :: 0 <= i < k ==> Trained(x[i], y[i], fill, out[i])
      requires Trained(x[k], y[k], fill, v)
      ensures forall i :: 0 <= i < k + 1 ==> Trained(x[i], y[i], fill, (out + [v])[i])
    {
      forall i | 0 <= i < k + 1
        ensures Trained(x[i], y[i], fill, (out + [v])[i])
      {
        if i < k {
          assert (out + [v])[i] == out[i];
        } else {
          assert (out + [v])[i] == v;
        }
      }
    }

    /** What training on one dialog hands to the network: the ids and masks over `zip(contexts, responses)`. */
    predicate Trained(contexts: seq<Turn>, responses: seq<string>, fill: string -> DT.Slots, d: (seq<nat>, seq<seq<int>>)) {
      var n := Min(|contexts|, |responses|);
      AllActions(responses[..n]) && d == (ActionIds(responses[..n]), TrainMasks(fill, contexts[..n]))
    }
  }

  lemma ConcatAssoc<T>(a: seq<T>, b: seq<T>, c: seq<T>)
    ensures (a + b) + c == a + (b + c)
  {
  }

  /** The network's one choice per utterance of an utterance batch. */
  function Firsts(choices: seq<seq<nat>>): (fs: seq<nat>)
    requires forall k :: 0 <= k < |choices| ==> |choices[k]| >= 1
    ensures |fs| == |choices| && forall k :: 0 <= k < |choices| ==> fs[k] == choices[k][0]
  {
    seq(|choices|, k requires 0 <= k < |choices| => choices[k][0])
  }
}

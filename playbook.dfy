/**
 * The run-of-show entities shared by the server and both browser clients:
 * a playbook item, the settings record and a log entry, together with the
 * two lookups (`find` and `findIndex` by id) that every component uses.
 */
module Playbook {

  datatype Option<+T> = None | Some(value: T)

  /** The segment type. MC_TIME shows the AI host; SESSION hides it. */
  datatype ItemType = McTime | Session

  /**
   * One segment of the playbook. An MC_TIME item uses `script` and
   * `systemInstruction`, a SESSION item uses `description`; all three are
   * optional fields of the same record. `kind` is the item's `type` field.
   */
  datatype PlaybookItem = PlaybookItem(
    id: string,
    kind: ItemType,
    title: string,
    script: Option<string>,
    systemInstruction: Option<string>,
    description: Option<string>)

  datatype Settings = Settings(avatarId: string, mcName: string)

  datatype LogEntry = LogEntry(time: string, message: string)

  /**
   * The snapshot the server returns from its state endpoint: the live run
   * state, the item resolved from `currentItemId` (absent when no item
   * matches), the playbook and the settings.
   */
  datatype AppState = AppState(
    currentItemId: Option<string>,
    currentItem: Option<PlaybookItem>,
    isRunning: bool,
    voiceSessionActive: bool,
    audioEnabled: bool,
    playbook: seq<PlaybookItem>,
    settings: Settings,
    logs: seq<LogEntry>)

  /** JavaScript's `value || fallback` on an optional string: both a missing and an empty string are falsy. */
  function OrElse(value: Option<string>, fallback: string): (r: string)
    ensures value.Some? && value.value != "" ==> r == value.value
    ensures value.None? || value.value == "" ==> r == fallback
  {
    match value
    case Some(v) => if v != "" then v else fallback
    case None => fallback
  }

  function DigitChar(d: nat): (c: char)
    requires d < 10
    ensures '0' <= c <= '9'
    ensures c as int - '0' as int == d
  {
    ('0' as int + d) as char
  }

  /** Decimal rendering of a natural number, as a template literal prints it. */
  function NatToString(n: nat): (s: string)
    ensures |s| >= 1
    ensures forall i :: 0 <= i < |s| ==> '0' <= s[i] <= '9'
    ensures n < 10 ==> s == [DigitChar(n)]
  {
    if n < 10 then [DigitChar(n)] else NatToString(n / 10) + [DigitChar(n % 10)]
  }

  /** The number a string of decimal digits denotes, most significant digit first. */
  function DigitsValue(s: string): nat
    requires forall i :: 0 <= i < |s| ==> '0' <= s[i] <= '9'
  {
    if s == [] then 0
    else DigitsValue(s[..|s| - 1]) * 10 + (s[|s| - 1] as int - '0' as int)
  }

  /** The digits `NatToString` prints denote the number printed. */
  lemma {:induction false} NatToStringValue(n: nat)
    ensures DigitsValue(NatToString(n)) == n
  {
    if n >= 10 {
      var s := NatToString(n);
      NatToStringValue(n / 10);
      assert s[..|s| - 1] == NatToString(n / 10);
      assert s[|s| - 1] == DigitChar(n % 10);
    }
  }

  /** Distinct numbers print as distinct strings. */
  lemma NatToStringInjective(m: nat, n: nat)
    requires m != n
    ensures NatToString(m) != NatToString(n)
  {
    NatToStringValue(m);
    NatToStringValue(n);
  }

  /** True when some item of `pb` carries the identifier `id` (a null `id` never matches). */
  predicate HasId(pb: seq<PlaybookItem>, id: Option<string>)
  {
    exists j :: 0 <= j < |pb| && Some(pb[j].id) == id
  }

  /**
   * The index lookup by id: the first position whose item carries `id`,
   * or -1. A null `id` (None) matches no item.
   */
  function FindIndex(pb: seq<PlaybookItem>, id: Option<string>): (r: int)
    ensures -1 <= r < |pb|
    ensures r == -1 <==> !HasId(pb, id)
    ensures r >= 0 ==> Some(pb[r].id) == id
    ensures r >= 0 ==> forall j :: 0 <= j < r ==> Some(pb[j].id) != id
  {
    if pb == [] then -1
    else if Some(pb[0].id) == id then 0
    else
      var k := FindIndex(pb[1..], id);
      assert forall j :: 1 <= j < |pb| ==> pb[j] == pb[1..][j - 1];
      if k == -1 then -1 else k + 1
  }

  /** The item lookup by id: the first item carrying `id`, if any. */
  function Find(pb: seq<PlaybookItem>, id: Option<string>): (r: Option<PlaybookItem>)
    ensures r.Some? <==> HasId(pb, id)
    ensures r.Some? ==> r.value in pb && Some(r.value.id) == id
    ensures r.Some? ==> r.value == pb[FindIndex(pb, id)]
  {
    var i := FindIndex(pb, id);
    if i < 0 then None else Some(pb[i])
  }

  /** A position holding the id with no earlier match is the one `findIndex` returns. */
  lemma FindIndexAt(pb: seq<PlaybookItem>, id: Option<string>, i: nat)
    requires i < |pb| && Some(pb[i].id) == id
    requires forall k :: 0 <= k < i ==> Some(pb[k].id) != id
    ensures FindIndex(pb, id) == i
  {
    assert HasId(pb, id);
  }

  /** No two items share an identifier. */
  predicate UniqueIds(pb: seq<PlaybookItem>)
  {
    forall i, j :: 0 <= i < j < |pb| ==> pb[i].id != pb[j].id
  }

  /** With unique identifiers, looking up the id of the item at `i` finds `i` itself. */
  lemma FindIndexOfUnique(pb: seq<PlaybookItem>, i: nat)
    requires UniqueIds(pb) && i < |pb|
    ensures FindIndex(pb, Some(pb[i].id)) == i
  {
    assert HasId(pb, Some(pb[i].id));
  }
}

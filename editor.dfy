/**
 * The playbook editor of the operator console. Every handler builds a new
 * playbook (and possibly a new selection) from the old one; nothing is
 * changed in place, so each is a function on `EditorState`.
 */
module Editor {
  import opened Playbook

  /** The editor's local playbook copy and the item shown in the form. */
  datatype EditorState = EditorState(playbook: seq<PlaybookItem>, selected: Option<PlaybookItem>)

  /** The text fields the form edits. */
  datatype Field = Title | Script | SystemInstruction | Description

  datatype Direction = Up | Down

  /** A copy of the item with one edited field set to `value`. */
  function WithField(item: PlaybookItem, field: Field, value: string): (r: PlaybookItem)
    ensures r.id == item.id && r.kind == item.kind
    ensures r.title == (if field == Title then value else item.title)
    ensures r.script == (if field == Script then Some(value) else item.script)
    ensures r.systemInstruction == (if field == SystemInstruction then Some(value) else item.systemInstruction)
    ensures r.description == (if field == Description then Some(value) else item.description)
  {
    match field
    case Title => item.(title := value)
    case Script => item.(script := Some(value))
    case SystemInstruction => item.(systemInstruction := Some(value))
    case Description => item.(description := Some(value))
  }

  /** Every item carrying the updated item's id is replaced by it; the others stay as they were. */
  function ReplaceById(pb: seq<PlaybookItem>, updated: PlaybookItem): (r: seq<PlaybookItem>)
    ensures |r| == |pb|
    ensures forall i :: 0 <= i < |pb| ==> r[i].id == pb[i].id
    ensures forall i :: 0 <= i < |pb| && pb[i].id != updated.id ==> r[i] == pb[i]
    ensures forall i :: 0 <= i < |pb| && pb[i].id == updated.id ==> r[i] == updated
  {
    seq(|pb|, i requires 0 <= i < |pb| => if pb[i].id == updated.id then updated else pb[i])
  }

  /**
   * Edit one field of the selected item: the selection takes the new
   * value and every playbook item with the selected id is replaced by it.
   */
  function ItemChange(e: EditorState, field: Field, value: string): (r: EditorState)
    ensures e.selected.None? ==> r == e
    ensures e.selected.Some? ==>
      && r.selected == Some(WithField(e.selected.value, field, value))
      && |r.playbook| == |e.playbook|
      && (forall i :: 0 <= i < |e.playbook| ==> r.playbook[i].id == e.playbook[i].id)
      && (forall i :: 0 <= i < |e.playbook| && e.playbook[i].id != e.selected.value.id ==> r.playbook[i] == e.playbook[i])
      && (forall i :: 0 <= i < |e.playbook| && e.playbook[i].id == e.selected.value.id ==> r.playbook[i] == r.selected.value)
  {
    match e.selected
    case None => e
    case Some(sel) =>
      var updated := WithField(sel, field, value);
      EditorState(ReplaceById(e.playbook, updated), Some(updated))
  }

  /** The item type in lower case, the prefix of a new item's id. */
  function IdPrefix(kind: ItemType): string
  {
    match kind
    case McTime => "mc_time"
    case Session => "session"
  }

  const NewMcTitle: string := "새 사회자 타임"
  const NewMcInstruction: string := "당신은 AI 사회자입니다."
  const NewSessionTitle: string := "새 세션"

  /** The item the add buttons create; `now` is the clock reading that makes its id. */
  function NewItem(kind: ItemType, now: nat): (r: PlaybookItem)
    ensures r.kind == kind && r.id == IdPrefix(kind) + "_" + NatToString(now)
    ensures kind == McTime ==> && r.title == NewMcTitle
                               && r.script == Some("") && r.systemInstruction == Some(NewMcInstruction)
                               && r.description == None
    ensures kind == Session ==> && r.title == NewSessionTitle
                                && r.description == Some("")
                                && r.script == None && r.systemInstruction == None
  {
    var id := IdPrefix(kind) + "_" + NatToString(now);
    match kind
    case McTime => PlaybookItem(id, McTime, NewMcTitle, Some(""), Some(NewMcInstruction), None)
    case Session => PlaybookItem(id, Session, NewSessionTitle, None, None, Some(""))
  }

  /** Two clock readings that differ give new items of the same type different ids. */
  lemma NewItemIdsDistinct(kind: ItemType, t1: nat, t2: nat)
    requires t1 != t2
    ensures NewItem(kind, t1).id != NewItem(kind, t2).id
  {
    var prefix := IdPrefix(kind) + "_";
    var id1, id2 := NewItem(kind, t1).id, NewItem(kind, t2).id;
    assert id1[|prefix|..] == NatToString(t1);
    assert id2[|prefix|..] == NatToString(t2);
    NatToStringInjective(t1, t2);
  }

  /** Append a new item of the given type and select it. */
  function AddItem(e: EditorState, kind: ItemType, now: nat): (r: EditorState)
    ensures |r.playbook| == |e.playbook| + 1
    ensures r.playbook[..|e.playbook|] == e.playbook
    ensures r.playbook[|e.playbook|] == NewItem(kind, now)
    ensures r.selected == Some(NewItem(kind, now))
  {
    var item := NewItem(kind, now);
    EditorState(e.playbook + [item], Some(item))
  }

  /** The playbook without the items carrying `id`, the rest in their original order. */
  function Without(pb: seq<PlaybookItem>, id: string): (r: seq<PlaybookItem>)
    ensures |r| <= |pb|
    ensures forall x :: x in r ==> x in pb && x.id != id
    ensures forall x :: x in pb && x.id != id ==> x in r
    ensures multiset(r) <= multiset(pb)
  {
    if pb == [] then []
    else
      assert pb == [pb[0]] + pb[1..];
      if pb[0].id != id then [pb[0]] + Without(pb[1..], id) else Without(pb[1..], id)
  }

  /** Filtering distributes over concatenation: the kept items stay in their relative order. */
  lemma {:induction false} WithoutConcat(a: seq<PlaybookItem>, b: seq<PlaybookItem>, id: string)
    ensures Without(a + b, id) == Without(a, id) + Without(b, id)
    decreases |a|
  {
    if a == [] {
      assert a + b == b;
    } else {
      assert (a + b)[0] == a[0];
      assert (a + b)[1..] == a[1..] + b;
      WithoutConcat(a[1..], b, id);
    }
  }

  /** Deleting an id nobody carries leaves the playbook as it is. */
  lemma {:induction false} WithoutAbsent(pb: seq<PlaybookItem>, id: string)
    requires forall i :: 0 <= i < |pb| ==> pb[i].id != id
    ensures Without(pb, id) == pb
    decreases |pb|
  {
    if pb != [] {
      WithoutAbsent(pb[1..], id);
      assert [pb[0]] + pb[1..] == pb;
    }
  }

  /**
   * Delete (once the operator confirms): drop every item with the id;
   * when the selected item goes, the selection falls back to the first
   * remaining item, or to nothing.
   */
  function DeleteItem(e: EditorState, id: string, confirmed: bool): (r: EditorState)
    ensures !confirmed ==> r == e
    ensures confirmed ==> r.playbook == Without(e.playbook, id)
    ensures confirmed && e.selected.Some? && e.selected.value.id == id ==>
              r.selected == (if r.playbook == [] then None else Some(r.playbook[0]))
    ensures confirmed && !(e.selected.Some? && e.selected.value.id == id) ==> r.selected == e.selected
  {
    if !confirmed then e
    else
      var pb := Without(e.playbook, id);
      var sel := if e.selected.Some? && e.selected.value.id == id
                 then (if pb == [] then None else Some(pb[0]))
                 else e.selected;
      EditorState(pb, sel)
  }

  /** The position the item at `i` swaps with, if the move is not at a boundary. */
  function SwapIndex(i: int, dir: Direction): int
  {
    if dir == Up then i - 1 else i + 1
  }

  /** True when the move does nothing: the id is absent or the item is already at that end. */
  predicate MoveIsNoOp(pb: seq<PlaybookItem>, id: string, dir: Direction)
  {
    var i := FindIndex(pb, Some(id));
    i == -1 || (dir == Up && i == 0) || (dir == Down && i == |pb| - 1)
  }

  /** The two positions of a copy trade items; nothing else moves. */
  function Swap(pb: seq<PlaybookItem>, i: nat, j: nat): (r: seq<PlaybookItem>)
    requires i < |pb| && j < |pb|
    ensures |r| == |pb|
    ensures r[i] == pb[j] && r[j] == pb[i]
    ensures forall k :: 0 <= k < |pb| && k != i && k != j ==> r[k] == pb[k]
    ensures multiset(r) == multiset(pb)
  {
    pb[i := pb[j]][j := pb[i]]
  }

  /** Swapping the same two positions again restores the sequence. */
  lemma SwapBack(pb: seq<PlaybookItem>, i: nat, j: nat)
    requires i < |pb| && j < |pb|
    ensures Swap(Swap(pb, i, j), j, i) == pb
  {
    var r := Swap(Swap(pb, i, j), j, i);
    assert forall k :: 0 <= k < |pb| ==> r[k] == pb[k];
  }

  /** Swap the first item with the id and its neighbour in the given direction. */
  function MoveItem(pb: seq<PlaybookItem>, id: string, dir: Direction): (r: seq<PlaybookItem>)
    ensures MoveIsNoOp(pb, id, dir) ==> r == pb
    ensures !MoveIsNoOp(pb, id, dir) ==>
      var i := FindIndex(pb, Some(id));
      var j := SwapIndex(i, dir);
      0 <= j < |pb| && r == Swap(pb, i, j)
  {
    var i := FindIndex(pb, Some(id));
    if i == -1 then pb
    else if dir == Up && i == 0 then pb
    else if dir == Down && i == |pb| - 1 then pb
    else Swap(pb, i, SwapIndex(i, dir))
  }

  /**
   * Moving an item down and then up restores the playbook, provided the
   * down move happened and the neighbour it passed does not share its id
   * (otherwise the up move finds the neighbour first).
   */
  lemma DownThenUpRestores(pb: seq<PlaybookItem>, id: string)
    requires 0 <= FindIndex(pb, Some(id)) < |pb| - 1
    requires pb[FindIndex(pb, Some(id)) + 1].id != id
    ensures MoveItem(MoveItem(pb, id, Down), id, Up) == pb
  {
    var i := FindIndex(pb, Some(id));
    assert !MoveIsNoOp(pb, id, Down);
    var down := Swap(pb, i, i + 1);
    SwapDownFinds(pb, id, i);
    assert !MoveIsNoOp(down, id, Up);
    SwapBack(pb, i, i + 1);
  }

  /** After swapping the first match at `i` with a neighbour below that has another id, the match is at `i + 1`. */
  lemma SwapDownFinds(pb: seq<PlaybookItem>, id: string, i: nat)
    requires i + 1 < |pb| && FindIndex(pb, Some(id)) == i && pb[i + 1].id != id
    ensures FindIndex(Swap(pb, i, i + 1), Some(id)) == i + 1
  {
    var down := Swap(pb, i, i + 1);
    assert forall k :: 0 <= k < i ==> down[k] == pb[k];
    FindIndexAt(down, Some(id), i + 1);
  }

  /** Moving an item up and then down restores the playbook whenever the up move happened. */
  lemma UpThenDownRestores(pb: seq<PlaybookItem>, id: string)
    requires 0 < FindIndex(pb, Some(id))
    ensures MoveItem(MoveItem(pb, id, Up), id, Down) == pb
  {
    var i := FindIndex(pb, Some(id));
    assert !MoveIsNoOp(pb, id, Up);
    var up := Swap(pb, i, i - 1);
    SwapUpFinds(pb, id, i);
    assert !MoveIsNoOp(up, id, Down);
    SwapBack(pb, i, i - 1);
  }

  /** After swapping the first match at `i` with its upper neighbour, the match is at `i - 1`. */
  lemma SwapUpFinds(pb: seq<PlaybookItem>, id: string, i: nat)
    requires 0 < i < |pb| && FindIndex(pb, Some(id)) == i
    ensures FindIndex(Swap(pb, i, i - 1), Some(id)) == i - 1
  {
    var up := Swap(pb, i, i - 1);
    assert forall k :: 0 <= k < i - 1 ==> up[k] == pb[k];
    FindIndexAt(up, Some(id), i - 1);
  }

  /** What reading an imported file yields. */
  datatype Imported = ParseFailure | NotArray | ItemArray(items: seq<PlaybookItem>)

  /**
   * Import: only an array replaces the playbook, and its first item (if
   * any) becomes the selection; a parse failure or any other JSON value
   * leaves the editor as it was.
   */
  function ImportPlaybook(e: EditorState, parsed: Imported): (r: EditorState)
    ensures !parsed.ItemArray? ==> r == e
    ensures parsed.ItemArray? ==> r.playbook == parsed.items
    ensures parsed.ItemArray? ==> r.selected == (if parsed.items == [] then None else Some(parsed.items[0]))
  {
    match parsed
    case ItemArray(items) => EditorState(items, if items == [] then None else Some(items[0]))
    case _ => e
  }
}

/**
 * The Trello client of `services/trello.py` against an in-memory board.
 *
 * The board holds its label catalogue and its lists; it carries the one card
 * the pipeline works on. Every HTTP request goes through `Send`, which either
 * passes or fails according to the `link`: `Up` never fails, `FailsAfter(n)`
 * lets `n` more requests through and fails every request after them. Each
 * mutation the board accepts is recorded, in order, in `log`, which is also
 * the card's comment history.
 */
module Trello {
  import opened Results
  import opened PyStr

  datatype Label = Label(id: nat, name: string)

  datatype BoardList = BoardList(id: nat, name: string)

  /** What an attachment holds: uploaded text, uploaded bytes, or a file added outside the pipeline. */
  datatype Body = TextBody(text: string) | BytesBody(bytes: seq<bv8>) | External

  datatype Attachment = Attachment(name: string, mimeType: string, url: string, body: Body)

  datatype Card = Card(
    id: string,
    name: string,
    desc: string,
    labels: seq<Label>,
    attachments: seq<Attachment>,
    listId: nat)

  /** One accepted mutation of the board or the card. */
  datatype Action =
    | LabelCreated(created: Label)
    | LabelAdded(added: Label)
    | LabelRemoved(removed: Label)
    | Commented(text: string)
    | Attached(name: string)
    | Moved(listId: nat)

  datatype Link = Up | FailsAfter(n: nat)

  datatype World = World(
    catalogue: seq<Label>,
    lists: seq<BoardList>,
    nextId: nat,
    card: Card,
    log: seq<Action>,
    link: Link)

  /** The outcome of one client function: what it returned or raised, and the board it leaves. */
  datatype Call<T> = Call(result: Result<T, string>, world: World)

  const RequestFailed: string := "request failed"
  const CardNotFound: string := "404 Not Found"
  const TextMime: string := "text/plain"

  function ListNotFound(listName: string): string {
    "List '" + listName + "' not found on board"
  }

  /** One HTTP request: `None` when the link fails it. */
  function Send(w: World): (r: Option<World>)
    ensures r.Some? ==> r.value == w.(link := r.value.link)
    ensures r.None? <==> w.link == FailsAfter(0)
  {
    match w.link
    case Up => Some(w)
    case FailsAfter(n) => if n == 0 then None else Some(w.(link := FailsAfter(n - 1)))
  }

  /** The names compare equal after `.lower()` on both sides. */
  predicate SameName(a: string, b: string) {
    Lower(a) == Lower(b)
  }

  /** Index of the first name that matches. */
  function FindName(names: seq<string>, name: string): (r: Option<nat>)
    ensures r.Some? ==> r.value < |names| && SameName(names[r.value], name)
    ensures r.Some? ==> forall j :: 0 <= j < r.value ==> !SameName(names[j], name)
    ensures r.None? <==> forall j :: 0 <= j < |names| ==> !SameName(names[j], name)
  {
    if names == [] then None
    else if SameName(names[0], name) then Some(0)
    else
      var r := FindName(names[1..], name);
      assert forall j :: 0 < j < |names| ==> names[1..][j - 1] == names[j];
      if r.None? then None else Some(r.value + 1)
  }

  /** Index of the first label whose name matches. */
  function FindLabel(labels: seq<Label>, name: string): (r: Option<nat>)
    ensures r.Some? ==> r.value < |labels| && SameName(labels[r.value].name, name)
    ensures r.Some? ==> forall j :: 0 <= j < r.value ==> !SameName(labels[j].name, name)
    ensures r.None? <==> forall j :: 0 <= j < |labels| ==> !SameName(labels[j].name, name)
  {
    var names := seq(|labels|, k requires 0 <= k < |labels| => labels[k].name);
    assert forall j :: 0 <= j < |labels| ==> names[j] == labels[j].name;
    FindName(names, name)
  }

  /** Index of the first list whose name matches. */
  function FindList(lists: seq<BoardList>, name: string): (r: Option<nat>)
    ensures r.Some? ==> r.value < |lists| && SameName(lists[r.value].name, name)
    ensures r.Some? ==> forall j :: 0 <= j < r.value ==> !SameName(lists[j].name, name)
    ensures r.None? <==> forall j :: 0 <= j < |lists| ==> !SameName(lists[j].name, name)
  {
    var names := seq(|lists|, k requires 0 <= k < |lists| => lists[k].name);
    assert forall j :: 0 <= j < |lists| ==> names[j] == lists[j].name;
    FindName(names, name)
  }

  function LabelIds(labels: seq<Label>): set<nat> {
    set l | l in labels :: l.id
  }

  /** The card carries a label whose name matches. */
  predicate HasLabel(card: Card, name: string) {
    exists k :: 0 <= k < |card.labels| && SameName(card.labels[k].name, name)
  }

  // ---------------------------------------------------------------------
  // The client functions, as transitions of the board

  /** `get_card` */
  function GetCard(w: World, cardId: string): (c: Call<Card>)
    ensures c.world.card == w.card && c.world.log == w.log && c.world.catalogue == w.catalogue
    ensures c.world.nextId == w.nextId && c.world.lists == w.lists
    ensures c.result.Success? <==> Send(w).Some? && cardId == w.card.id
    ensures c.result.Success? ==> c.result.value == w.card
  {
    match Send(w)
    case None => Call(Failure(RequestFailed), w)
    case Some(w1) =>
      if cardId != w1.card.id then Call(Failure(CardNotFound), w1)
      else Call(Success(w1.card), w1)
  }

  /** `get_card_labels` */
  function GetCardLabels(w: World, cardId: string): (c: Call<seq<Label>>)
    ensures c.world == GetCard(w, cardId).world
    ensures c.result.Success? <==> GetCard(w, cardId).result.Success?
    ensures c.result.Success? ==> c.result.value == w.card.labels
  {
    var g := GetCard(w, cardId);
    if g.result.Failure? then Call(Failure(g.result.error), g.world)
    else Call(Success(g.result.value.labels), g.world)
  }

  /** `get_card_attachments` */
  function GetCardAttachments(w: World, cardId: string): (c: Call<seq<Attachment>>)
    ensures c.world.card == w.card && c.world.log == w.log
    ensures c.result.Success? <==> Send(w).Some? && cardId == w.card.id
    ensures c.result.Success? ==> c.result.value == w.card.attachments
  {
    match Send(w)
    case None => Call(Failure(RequestFailed), w)
    case Some(w1) =>
      if cardId != w1.card.id then Call(Failure(CardNotFound), w1)
      else Call(Success(w1.card.attachments), w1)
  }

  /** POST a new label to the board; Trello gives it a fresh id. */
  function CreateLabel(w: World, name: string): (c: Call<Label>)
    ensures c.result.Success? ==> c.result.value == Label(w.nextId, name)
    ensures c.result.Success? ==> c.world.catalogue == w.catalogue + [Label(w.nextId, name)]
    ensures c.result.Success? ==> c.world.nextId == w.nextId + 1
  {
    match Send(w)
    case None => Call(Failure(RequestFailed), w)
    case Some(w1) =>
      var l := Label(w1.nextId, name);
      Call(Success(l), w1.(catalogue := w1.catalogue + [l], nextId := w1.nextId + 1, log := w1.log + [LabelCreated(l)]))
  }

  /** POST the label id to the card; a 409 (already on the card) is not an error. */
  function PutLabelOnCard(w: World, cardId: string, l: Label): (c: Call<()>)
    ensures c.world.catalogue == w.catalogue
    ensures c.result.Success? <==> Send(w).Some? && cardId == w.card.id
    ensures c.result.Success? ==> c.world.card.labels == if l.id in LabelIds(w.card.labels) then w.card.labels else w.card.labels + [l]
  {
    match Send(w)
    case None => Call(Failure(RequestFailed), w)
    case Some(w1) =>
      if cardId != w1.card.id then Call(Failure(CardNotFound), w1)
      else if l.id in LabelIds(w1.card.labels) then Call(Success(()), w1)
      else Call(Success(()), w1.(card := w1.card.(labels := w1.card.labels + [l]), log := w1.log + [LabelAdded(l)]))
  }

  /** `add_label_by_name`: reuse the first matching board label, else create one, then add it to the card. */
  function AddLabelByName(w: World, cardId: string, name: string): Call<()> {
    match Send(w)
    case None => Call(Failure(RequestFailed), w)
    case Some(w1) =>
      var found := FindLabel(w1.catalogue, name);
      var got := if found.Some? then Call(Success(w1.catalogue[found.value]), w1) else CreateLabel(w1, name);
      if got.result.Failure? then Call(Failure(got.result.error), got.world)
      else PutLabelOnCard(got.world, cardId, got.result.value)
  }

  /** Index of the first card label whose name matches. */
  function FirstCardLabel(card: Card, name: string): Option<nat> {
    FindLabel(card.labels, name)
  }

  function RemoveAt<T>(s: seq<T>, k: nat): (r: seq<T>)
    requires k < |s|
    ensures |r| == |s| - 1
  {
    s[..k] + s[k + 1..]
  }

  /** `remove_label_by_name`: read the card, then delete its first matching label, if any. */
  function RemoveLabelByName(w: World, cardId: string, name: string): Call<()> {
    var g := GetCard(w, cardId);
    if g.result.Failure? then Call(Failure(g.result.error), g.world)
    else
      var w1 := g.world;
      var k := FirstCardLabel(w1.card, name);
      if k.None? then Call(Success(()), w1)
      else match Send(w1)
        case None => Call(Failure(RequestFailed), w1)
        case Some(w2) =>
          var l := w2.card.labels[k.value];
          Call(Success(()), w2.(card := w2.card.(labels := RemoveAt(w2.card.labels, k.value)), log := w2.log + [LabelRemoved(l)]))
  }

  /** `add_comment` */
  function AddComment(w: World, cardId: string, text: string): (c: Call<()>)
    ensures c.world.card == w.card && c.world.catalogue == w.catalogue
    ensures c.result.Success? <==> Send(w).Some? && cardId == w.card.id
    ensures c.world.log == if c.result.Success? then w.log + [Commented(text)] else w.log
  {
    match Send(w)
    case None => Call(Failure(RequestFailed), w)
    case Some(w1) =>
      if cardId != w1.card.id then Call(Failure(CardNotFound), w1)
      else Call(Success(()), w1.(log := w1.log + [Commented(text)]))
  }

  /** Upload one file to the card's attachments. */
  function Attach(w: World, cardId: string, a: Attachment): (c: Call<()>)
    ensures c.world.catalogue == w.catalogue
    ensures c.world.card.labels == w.card.labels && c.world.card.listId == w.card.listId
    ensures c.result.Success? <==> Send(w).Some? && cardId == w.card.id
    ensures c.world.card.attachments == if c.result.Success? then w.card.attachments + [a] else w.card.attachments
  {
    match Send(w)
    case None => Call(Failure(RequestFailed), w)
    case Some(w1) =>
      if cardId != w1.card.id then Call(Failure(CardNotFound), w1)
      else Call(Success(()), w1.(card := w1.card.(attachments := w1.card.attachments + [a]), log := w1.log + [Attached(a.name)]))
  }

  /** `attach_text_file` */
  function AttachTextFile(w: World, cardId: string, filename: string, content: string): Call<()> {
    Attach(w, cardId, Attachment(filename, TextMime, "", TextBody(content)))
  }

  /** `attach_binary_file` */
  function AttachBinaryFile(w: World, cardId: string, filename: string, data: seq<bv8>, mimeType: string): Call<()> {
    Attach(w, cardId, Attachment(filename, mimeType, "", BytesBody(data)))
  }

  /** `move_card_to_list`: read the board's lists, then move the card to the first match. */
  function MoveCardToList(w: World, cardId: string, listName: string): (c: Call<()>)
    ensures c.world.lists == w.lists
    ensures c.result.Success? ==> FindList(w.lists, listName).Some?
  {
    match Send(w)
    case None => Call(Failure(RequestFailed), w)
    case Some(w1) =>
      var k := FindList(w1.lists, listName);
      if k.None? then Call(Failure(ListNotFound(listName)), w1)
      else match Send(w1)
        case None => Call(Failure(RequestFailed), w1)
        case Some(w2) =>
          if cardId != w2.card.id then Call(Failure(CardNotFound), w2)
          else
            var target := w2.lists[k.value].id;
            Call(Success(()), w2.(card := w2.card.(listId := target), log := w2.log + [Moved(target)]))
  }

  // ---------------------------------------------------------------------
  // Properties of the client functions

  /** Board label ids are distinct and below the next id; the card's labels are board labels with distinct ids. */
  predicate WellFormed(w: World) {
    && (forall i, j :: 0 <= i < j < |w.catalogue| ==> w.catalogue[i].id != w.catalogue[j].id)
    && (forall i :: 0 <= i < |w.catalogue| ==> w.catalogue[i].id < w.nextId)
    && (forall l :: l in w.card.labels ==> l in w.catalogue)
    && (forall i, j :: 0 <= i < j < |w.card.labels| ==> w.card.labels[i].id != w.card.labels[j].id)
  }

  /** The one request that makes no change to the board's contents. */
  predicate SameContents(a: World, b: World) {
    a.catalogue == b.catalogue && a.lists == b.lists && a.nextId == b.nextId && a.card == b.card && a.log == b.log
  }

  /** On a well-formed board the fresh id is on no card label. */
  lemma FreshIdNotOnCard(w: World)
    requires WellFormed(w)
    ensures w.nextId !in LabelIds(w.card.labels)
  {
    forall m | m in w.card.labels
      ensures m.id < w.nextId
    {
      assert m in w.catalogue;
    }
  }

  /** On a well-formed board a catalogue label whose id is on the card is itself on the card. */
  lemma IdOnCardMeansLabelOnCard(w: World, l: Label)
    requires WellFormed(w) && l in w.catalogue && l.id in LabelIds(w.card.labels)
    ensures l in w.card.labels
  {
    var m :| m in w.card.labels && m.id == l.id;
    assert m in w.catalogue;
    var i :| 0 <= i < |w.catalogue| && w.catalogue[i] == m;
    var j :| 0 <= j < |w.catalogue| && w.catalogue[j] == l;
    assert i == j;
  }

  /** When a board label already matches, the first such label is reused and none is created. */
  lemma AddLabelReusesFirstMatch(w: World, cardId: string, name: string)
    requires WellFormed(w) && Send(w).Some? && FindLabel(w.catalogue, name).Some?
    ensures var c := AddLabelByName(w, cardId, name);
            var first := w.catalogue[FindLabel(w.catalogue, name).value];
            && c.world.catalogue == w.catalogue
            && (c.result.Success? ==> first in c.world.card.labels)
  {
    var first := w.catalogue[FindLabel(w.catalogue, name).value];
    var c := AddLabelByName(w, cardId, name);
    if c.result.Success? {
      if first.id in LabelIds(w.card.labels) {
        IdOnCardMeansLabelOnCard(w, first);
      } else {
        assert c.world.card.labels[|w.card.labels|] == first;
      }
    }
  }

  /** When no board label matches, exactly one label with the requested name is created and put on the card. */
  lemma AddLabelCreatesWhenMissing(w: World, cardId: string, name: string)
    requires w.link == Up && cardId == w.card.id && WellFormed(w)
    requires FindLabel(w.catalogue, name).None?
    ensures var c := AddLabelByName(w, cardId, name);
            && c.result.Success?
            && c.world.catalogue == w.catalogue + [Label(w.nextId, name)]
            && c.world.card.labels == w.card.labels + [Label(w.nextId, name)]
            && c.world.log == w.log + [LabelCreated(Label(w.nextId, name)), LabelAdded(Label(w.nextId, name))]
  {
    FreshIdNotOnCard(w);
  }

  /** The label `add_label_by_name` settles on: the first matching board label, or the one it creates. */
  function ChosenLabel(w: World, name: string): Label {
    var found := FindLabel(w.catalogue, name);
    if found.Some? then w.catalogue[found.value] else Label(w.nextId, name)
  }

  /** A successful add on a well-formed board leaves the chosen label, whose name matches, on the card. */
  lemma AddLabelGivesLabel(w: World, cardId: string, name: string)
    requires WellFormed(w) && AddLabelByName(w, cardId, name).result.Success?
    ensures var card := AddLabelByName(w, cardId, name).world.card;
            ChosenLabel(w, name) in card.labels && HasLabel(card, name)
  {
    var l := ChosenLabel(w, name);
    var c := AddLabelByName(w, cardId, name);
    if FindLabel(w.catalogue, name).None? {
      FreshIdNotOnCard(w);
    }
    if l.id in LabelIds(w.card.labels) {
      IdOnCardMeansLabelOnCard(w, l);
      assert c.world.card.labels == w.card.labels;
    } else {
      assert c.world.card.labels[|w.card.labels|] == l;
    }
    var k :| 0 <= k < |c.world.card.labels| && c.world.card.labels[k] == l;
    assert SameName(c.world.card.labels[k].name, name);
  }

  /** Adding a label the card already got is answered with 409 and changes nothing: adding is idempotent. */
  lemma {:induction false} AddLabelIdempotent(w: World, cardId: string, name: string)
    requires w.link == Up && WellFormed(w)
    requires AddLabelByName(w, cardId, name).result.Success?
    ensures var w1 := AddLabelByName(w, cardId, name).world;
            AddLabelByName(w1, cardId, name) == Call(Success(()), w1)
  {
    var l := ChosenLabel(w, name);
    var w1 := AddLabelByName(w, cardId, name).world;
    AddLabelGivesLabel(w, cardId, name);
    ChosenLabelStable(w, cardId, name);
    assert l.id in LabelIds(w1.card.labels);
  }

  /** After a successful add, a second add chooses the same label. */
  lemma ChosenLabelStable(w: World, cardId: string, name: string)
    requires w.link == Up && AddLabelByName(w, cardId, name).result.Success?
    ensures ChosenLabel(AddLabelByName(w, cardId, name).world, name) == ChosenLabel(w, name)
  {
    var l := ChosenLabel(w, name);
    var found := FindLabel(w.catalogue, name);
    var got := if found.Some? then Call(Success(w.catalogue[found.value]), w) else CreateLabel(w, name);
    assert Send(w) == Some(w);
    var w1 := PutLabelOnCard(got.world, cardId, got.result.value).world;
    assert AddLabelByName(w, cardId, name).world == w1;
    if found.None? {
      assert w1.catalogue == w.catalogue + [l];
      FirstMatchIsFound(w1.catalogue, name, |w.catalogue|);
    } else {
      assert w1.catalogue == w.catalogue;
    }
  }

  lemma CreateLabelKeepsWellFormed(w: World, name: string)
    requires WellFormed(w)
    ensures var c := CreateLabel(w, name);
            WellFormed(c.world) && (c.result.Success? ==> c.result.value in c.world.catalogue)
  {
    var c := CreateLabel(w, name);
    if c.result.Success? {
      assert c.world.catalogue[|w.catalogue|] == c.result.value;
      forall l | l in c.world.card.labels
        ensures l in c.world.catalogue
      {
        assert l in w.catalogue;
      }
    }
  }

  lemma PutLabelKeepsWellFormed(w: World, cardId: string, l: Label)
    requires WellFormed(w) && l in w.catalogue
    ensures WellFormed(PutLabelOnCard(w, cardId, l).world)
  {
    var c := PutLabelOnCard(w, cardId, l);
    if c.world.card.labels != w.card.labels {
      assert l.id !in LabelIds(w.card.labels);
      forall i | 0 <= i < |w.card.labels|
        ensures w.card.labels[i].id != l.id
      {
        assert w.card.labels[i] in w.card.labels;
      }
    }
  }

  /** Adding keeps the board well formed. */
  lemma AddLabelKeepsWellFormed(w: World, cardId: string, name: string)
    requires WellFormed(w)
    ensures WellFormed(AddLabelByName(w, cardId, name).world)
  {
    if Send(w).Some? {
      var w1 := Send(w).value;
      var found := FindLabel(w1.catalogue, name);
      var got := if found.Some? then Call(Success(w1.catalogue[found.value]), w1) else CreateLabel(w1, name);
      if found.None? {
        CreateLabelKeepsWellFormed(w1, name);
      }
      if got.result.Success? {
        PutLabelKeepsWellFormed(got.world, cardId, got.result.value);
      }
    }
  }

  /** Removing deletes the first matching card label and only that one; with no match it changes nothing. */
  lemma RemoveLabelFirstMatchOnly(w: World, cardId: string, name: string)
    requires RemoveLabelByName(w, cardId, name).result.Success?
    ensures var after := RemoveLabelByName(w, cardId, name).world.card.labels;
            match FindLabel(w.card.labels, name)
            case None => after == w.card.labels
            case Some(k) => after == w.card.labels[..k] + w.card.labels[k + 1..]
    ensures var c := RemoveLabelByName(w, cardId, name).world;
            c.catalogue == w.catalogue && c.card.attachments == w.card.attachments && c.card.listId == w.card.listId
  {
  }

  /** A remove changes the card's labels by at most one. */
  lemma RemoveLabelAtMostOne(w: World, cardId: string, name: string)
    ensures var n := |RemoveLabelByName(w, cardId, name).world.card.labels|;
            n == |w.card.labels| || n == |w.card.labels| - 1
  {
  }

  /** Removing keeps the board well formed. */
  lemma RemoveLabelKeepsWellFormed(w: World, cardId: string, name: string)
    requires WellFormed(w)
    ensures WellFormed(RemoveLabelByName(w, cardId, name).world)
  {
    var c := RemoveLabelByName(w, cardId, name);
    var k := FindLabel(w.card.labels, name);
    if c.world.card.labels != w.card.labels {
      RemoveAtShifts(w.card.labels, k.value);
    }
  }

  /** Deleting one position shifts the later elements down by one, so nothing new appears. */
  lemma RemoveAtShifts<T>(s: seq<T>, k: nat)
    requires k < |s|
    ensures forall i :: 0 <= i < |RemoveAt(s, k)| ==> RemoveAt(s, k)[i] == if i < k then s[i] else s[i + 1]
    ensures forall x :: x in RemoveAt(s, k) ==> x in s
  {
    var r := RemoveAt(s, k);
    forall x | x in r ensures x in s {
      var i :| 0 <= i < |r| && r[i] == x;
      if i < k { assert s[i] == x; } else { assert s[i + 1] == x; }
    }
  }

  /** At most one of `labels` has a name matching `name`. */
  predicate NameAtMostOnce(labels: seq<Label>, name: string) {
    forall i, j :: 0 <= i < j < |labels| && SameName(labels[i].name, name) ==> !SameName(labels[j].name, name)
  }

  /** On a well-formed board, a name the catalogue holds at most once is on the card at most once. */
  lemma CardNameAtMostOnce(w: World, name: string)
    requires WellFormed(w) && NameAtMostOnce(w.catalogue, name)
    ensures NameAtMostOnce(w.card.labels, name)
  {
    forall i, j | 0 <= i < j < |w.card.labels| && SameName(w.card.labels[i].name, name)
      ensures !SameName(w.card.labels[j].name, name)
    {
      var a := w.card.labels[i];
      var b := w.card.labels[j];
      assert a in w.card.labels && b in w.card.labels;
      var p :| 0 <= p < |w.catalogue| && w.catalogue[p] == a;
      var q :| 0 <= q < |w.catalogue| && w.catalogue[q] == b;
      assert a.id != b.id;
      if p < q {
        assert !SameName(w.catalogue[q].name, name);
      } else {
        assert p != q;
        assert !SameName(w.catalogue[q].name, name);
      }
    }
  }

  /** A successful remove of a name the card holds at most once leaves no label of that name. */
  lemma RemoveLabelClears(w: World, cardId: string, name: string)
    requires NameAtMostOnce(w.card.labels, name) && RemoveLabelByName(w, cardId, name).result.Success?
    ensures !HasLabel(RemoveLabelByName(w, cardId, name).world.card, name)
  {
    RemoveLabelFirstMatchOnly(w, cardId, name);
    var s := w.card.labels;
    var after := RemoveLabelByName(w, cardId, name).world.card.labels;
    var k := FindLabel(s, name);
    if k.Some? {
      RemoveAtShifts(s, k.value);
      forall i | 0 <= i < |after|
        ensures !SameName(after[i].name, name)
      {
        if i >= k.value {
          assert after[i] == s[i + 1];
        }
      }
    }
  }

  /** A successful remove on a well-formed board clears a name the catalogue holds at most once, and keeps the board. */
  lemma RemoveLabelClearsOnBoard(w: World, cardId: string, name: string)
    requires WellFormed(w) && NameAtMostOnce(w.catalogue, name) && RemoveLabelByName(w, cardId, name).result.Success?
    ensures var after := RemoveLabelByName(w, cardId, name).world;
            !HasLabel(after.card, name) && WellFormed(after) && after.catalogue == w.catalogue
  {
    CardNameAtMostOnce(w, name);
    RemoveLabelClears(w, cardId, name);
    RemoveLabelKeepsWellFormed(w, cardId, name);
    RemoveLabelFirstMatchOnly(w, cardId, name);
  }

  /** A remove never puts a name on the card. */
  lemma RemoveLabelKeepsAbsent(w: World, cardId: string, name: string, other: string)
    requires !HasLabel(w.card, other)
    ensures !HasLabel(RemoveLabelByName(w, cardId, name).world.card, other)
  {
    var c := RemoveLabelByName(w, cardId, name);
    if c.world.card.labels != w.card.labels {
      RemoveAtShifts(w.card.labels, FindLabel(w.card.labels, name).value);
      forall i | 0 <= i < |c.world.card.labels|
        ensures !SameName(c.world.card.labels[i].name, other)
      {
        assert c.world.card.labels[i] in w.card.labels;
      }
    }
  }

  /** An add puts on the card only a label matching the name added. */
  lemma AddLabelKeepsAbsent(w: World, cardId: string, name: string, other: string)
    requires !HasLabel(w.card, other) && !SameName(name, other)
    ensures !HasLabel(AddLabelByName(w, cardId, name).world.card, other)
  {
    var after := AddLabelByName(w, cardId, name).world.card.labels;
    if after != w.card.labels {
      assert after == w.card.labels + [after[|w.card.labels|]];
      assert SameName(after[|w.card.labels|].name, name);
      forall i | 0 <= i < |after|
        ensures !SameName(after[i].name, other)
      {
        if i < |w.card.labels| {
          assert after[i] == w.card.labels[i];
        }
      }
    }
  }

  /** An add keeps a name the catalogue holds at most once so: it creates a label only when none matches. */
  lemma AddLabelKeepsNameAtMostOnce(w: World, cardId: string, name: string, other: string)
    requires NameAtMostOnce(w.catalogue, other)
    ensures NameAtMostOnce(AddLabelByName(w, cardId, name).world.catalogue, other)
  {
    var cat := AddLabelByName(w, cardId, name).world.catalogue;
    if cat != w.catalogue {
      assert FindLabel(w.catalogue, name).None?;
      assert cat == w.catalogue + [Label(w.nextId, name)];
      forall i, j | 0 <= i < j < |cat| && SameName(cat[i].name, other)
        ensures !SameName(cat[j].name, other)
      {
        if j == |w.catalogue| {
          assert !SameName(w.catalogue[i].name, name);
        }
      }
    }
  }

  /** With no matching list the move raises and the card stays where it is. */
  lemma MoveWithoutMatchRaises(w: World, cardId: string, listName: string)
    requires FindList(w.lists, listName).None?
    ensures var c := MoveCardToList(w, cardId, listName);
            && c.result.Failure?
            && SameContents(c.world, w)
  {
  }

  /** With a matching list the card goes to the first list whose name matches. */
  lemma MoveToFirstMatch(w: World, cardId: string, listName: string)
    requires MoveCardToList(w, cardId, listName).result.Success?
    ensures FindList(w.lists, listName).Some?
    ensures MoveCardToList(w, cardId, listName).world.card.listId == w.lists[FindList(w.lists, listName).value].id
    ensures MoveCardToList(w, cardId, listName).world.card.labels == w.card.labels
  {
  }

  /** Once the link is down, every client function raises and the board keeps its contents. */
  lemma LinkDownChangesNothing(w: World, cardId: string, name: string, text: string, a: Attachment)
    requires w.link == FailsAfter(0)
    ensures AddLabelByName(w, cardId, name) == Call(Failure(RequestFailed), w)
    ensures RemoveLabelByName(w, cardId, name) == Call(Failure(RequestFailed), w)
    ensures AddComment(w, cardId, text) == Call(Failure(RequestFailed), w)
    ensures Attach(w, cardId, a) == Call(Failure(RequestFailed), w)
    ensures MoveCardToList(w, cardId, name) == Call(Failure(RequestFailed), w)
    ensures GetCardLabels(w, cardId).result.Failure?
  {
  }

  /** A match with no match before it is the one `FindLabel` returns. */
  lemma FirstMatchIsFound(labels: seq<Label>, name: string, i: nat)
    requires i < |labels| && SameName(labels[i].name, name)
    requires forall j :: 0 <= j < i ==> !SameName(labels[j].name, name)
    ensures FindLabel(labels, name) == Some(i)
  {
  }

  lemma FirstListIsFound(lists: seq<BoardList>, name: string, i: nat)
    requires i < |lists| && SameName(lists[i].name, name)
    requires forall j :: 0 <= j < i ==> !SameName(lists[j].name, name)
    ensures FindList(lists, name) == Some(i)
  {
  }

  /** An add never takes a label off the card: the labels before are a prefix of those after. */
  lemma AddLabelKeepsCardLabels(w: World, cardId: string, name: string)
    ensures w.card.labels <= AddLabelByName(w, cardId, name).world.card.labels
  {
  }

  /** A remove keeps every card label whose name does not match. */
  lemma RemoveLabelKeepsOthers(w: World, cardId: string, name: string, l: Label)
    requires l in w.card.labels && !SameName(l.name, name)
    ensures l in RemoveLabelByName(w, cardId, name).world.card.labels
  {
    var c := RemoveLabelByName(w, cardId, name);
    if c.result.Success? {
      RemoveLabelFirstMatchOnly(w, cardId, name);
      var k := FindLabel(w.card.labels, name);
      if k.Some? {
        var s := w.card.labels;
        var i :| 0 <= i < |s| && s[i] == l;
        RemoveAtKeepsOther(s, k.value, i);
      }
    }
  }

  /** Deleting one position keeps the element at every other position. */
  lemma RemoveAtKeepsOther<T>(s: seq<T>, k: nat, i: nat)
    requires k < |s| && i < |s| && i != k
    ensures s[i] in RemoveAt(s, k)
  {
    if i < k {
      assert RemoveAt(s, k)[i] == s[i];
    } else {
      assert RemoveAt(s, k)[i - 1] == s[i];
    }
  }

  /** A move, successful or not, leaves the card's labels alone. */
  lemma MoveKeepsLabels(w: World, cardId: string, listName: string)
    ensures MoveCardToList(w, cardId, listName).world.card.labels == w.card.labels
    ensures MoveCardToList(w, cardId, listName).world.catalogue == w.catalogue
    ensures MoveCardToList(w, cardId, listName).world.nextId == w.nextId
  {
  }

  /** When the card's labels cannot be read, a label add that follows fails as well. */
  lemma UnreadableCardRefusesLabel(w: World, cardId: string, name: string)
    requires GetCardLabels(w, cardId).result.Failure?
    ensures AddLabelByName(GetCardLabels(w, cardId).world, cardId, name).result.Failure?
  {
  }

  /** Label changes leave the card in its list and the board's lists alone. */
  lemma LabelChangesKeepPlace(w: World, cardId: string, name: string)
    ensures AddLabelByName(w, cardId, name).world.card.listId == w.card.listId
    ensures AddLabelByName(w, cardId, name).world.lists == w.lists
    ensures AddLabelByName(w, cardId, name).world.card.attachments == w.card.attachments
    ensures RemoveLabelByName(w, cardId, name).world.card.listId == w.card.listId
    ensures RemoveLabelByName(w, cardId, name).world.lists == w.lists
  {
  }

  /** Actions that only concern labels. */
  predicate LabelActions(s: seq<Action>) {
    forall i :: 0 <= i < |s| ==> s[i].LabelCreated? || s[i].LabelAdded? || s[i].LabelRemoved?
  }

  /** The log after is the log before followed by label actions only. */
  predicate ExtendsWithLabelActions(before: seq<Action>, after: seq<Action>) {
    before <= after && LabelActions(after[|before|..])
  }

  lemma ExtendsWithLabelActionsTrans(a: seq<Action>, b: seq<Action>, c: seq<Action>)
    requires ExtendsWithLabelActions(a, b) && ExtendsWithLabelActions(b, c)
    ensures ExtendsWithLabelActions(a, c)
  {
    assert forall i :: |a| <= i < |c| ==> c[i] == (if i < |b| then b[|a|..][i - |a|] else c[|b|..][i - |b|]);
  }

  /** An add records nothing but label actions. */
  lemma AddLabelLogsLabels(w: World, cardId: string, name: string)
    ensures ExtendsWithLabelActions(w.log, AddLabelByName(w, cardId, name).world.log)
  {
    var after := AddLabelByName(w, cardId, name).world.log;
    assert after == w.log || after == w.log + after[|w.log|..];
  }

  /** A remove records nothing but label actions. */
  lemma RemoveLabelLogsLabels(w: World, cardId: string, name: string)
    ensures ExtendsWithLabelActions(w.log, RemoveLabelByName(w, cardId, name).world.log)
  {
  }
}

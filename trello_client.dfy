/**
 * The client functions of `services/trello.py` as methods on a board that
 * they update in place; each method leaves the board in the state, and
 * returns the result, of the matching transition of module `Trello`.
 */
module TrelloClient {
  import opened Results
  import opened PyStr
  import opened Trello

  class Board {
    var catalogue: seq<Label>
    var lists: seq<BoardList>
    var nextId: nat
    var card: Card
    var log: seq<Action>
    var link: Link

    function State(): World
      reads this
    {
      World(catalogue, lists, nextId, card, log, link)
    }

    constructor (w: World)
      ensures State() == w
    {
      catalogue, lists, nextId, card, log, link := w.catalogue, w.lists, w.nextId, w.card, w.log, w.link;
    }

    method Load(w: World)
      modifies this
      ensures State() == w
    {
      catalogue, lists, nextId, card, log, link := w.catalogue, w.lists, w.nextId, w.card, w.log, w.link;
    }

    /** One HTTP request. */
    method Request() returns (ok: bool)
      modifies this
      ensures ok <==> Send(old(State())).Some?
      ensures State() == if ok then Send(old(State())).value else old(State())
    {
      match link
      case Up => ok := true;
      case FailsAfter(n) =>
        ok := n > 0;
        if ok {
          link := FailsAfter(n - 1);
        }
    }

    method GetCard(cardId: string) returns (r: Result<Card, string>)
      modifies this
      ensures Call(r, State()) == Trello.GetCard(old(State()), cardId)
    {
      var ok := Request();
      if !ok {
        return Failure(RequestFailed);
      }
      if cardId != card.id {
        return Failure(CardNotFound);
      }
      return Success(card);
    }

    method GetCardLabels(cardId: string) returns (r: Result<seq<Label>, string>)
      modifies this
      ensures Call(r, State()) == Trello.GetCardLabels(old(State()), cardId)
    {
      var g := GetCard(cardId);
      if g.Failure? {
        return Failure(g.error);
      }
      return Success(g.value.labels);
    }

    method GetCardAttachments(cardId: string) returns (r: Result<seq<Attachment>, string>)
      modifies this
      ensures Call(r, State()) == Trello.GetCardAttachments(old(State()), cardId)
    {
      var ok := Request();
      if !ok {
        return Failure(RequestFailed);
      }
      if cardId != card.id {
        return Failure(CardNotFound);
      }
      return Success(card.attachments);
    }

    /** The find-first loop over the board's labels. */
    method FindBoardLabel(name: string) returns (found: Option<nat>)
      ensures found == FindLabel(catalogue, name)
    {
      var i := 0;
      while i < |catalogue|
        invariant 0 <= i <= |catalogue|
        invariant forall j :: 0 <= j < i ==> !SameName(catalogue[j].name, name)
      {
        if Lower(catalogue[i].name) == Lower(name) {
          Trello.FirstMatchIsFound(catalogue, name, i);
          return Some(i);
        }
        i := i + 1;
      }
      return None;
    }

    method AddLabelByName(cardId: string, name: string) returns (r: Result<(), string>)
      modifies this
      ensures Call(r, State()) == Trello.AddLabelByName(old(State()), cardId, name)
    {
      var ok := Request();
      if !ok {
        return Failure(RequestFailed);
      }
      var found := FindBoardLabel(name);
      var l: Label;
      if found.Some? {
        l := catalogue[found.value];
      } else {
        ok := Request();
        if !ok {
          return Failure(RequestFailed);
        }
        l := Label(nextId, name);
        catalogue := catalogue + [l];
        nextId := nextId + 1;
        log := log + [LabelCreated(l)];
      }
      ok := Request();
      if !ok {
        return Failure(RequestFailed);
      }
      if cardId != card.id {
        return Failure(CardNotFound);
      }
      if l.id !in LabelIds(card.labels) {
        card := card.(labels := card.labels + [l]);
        log := log + [LabelAdded(l)];
      }
      return Success(());
    }

    method RemoveLabelByName(cardId: string, name: string) returns (r: Result<(), string>)
      modifies this
      ensures Call(r, State()) == Trello.RemoveLabelByName(old(State()), cardId, name)
    {
      var g := GetCard(cardId);
      if g.Failure? {
        return Failure(g.error);
      }
      var labels := g.value.labels;
      var i := 0;
      while i < |labels|
        invariant 0 <= i <= |labels|
        invariant labels == card.labels && State() == Send(old(State())).value
        invariant forall j :: 0 <= j < i ==> !SameName(labels[j].name, name)
      {
        if Lower(labels[i].name) == Lower(name) {
          Trello.FirstMatchIsFound(labels, name, i);
          var ok := Request();
          if !ok {
            return Failure(RequestFailed);
          }
          card := card.(labels := RemoveAt(card.labels, i));
          log := log + [LabelRemoved(labels[i])];
          return Success(());
        }
        i := i + 1;
      }
      return Success(());
    }

    method AddComment(cardId: string, text: string) returns (r: Result<(), string>)
      modifies this
      ensures Call(r, State()) == Trello.AddComment(old(State()), cardId, text)
    {
      var ok := Request();
      if !ok {
        return Failure(RequestFailed);
      }
      if cardId != card.id {
        return Failure(CardNotFound);
      }
      log := log + [Commented(text)];
      return Success(());
    }

    method AttachTextFile(cardId: string, filename: string, content: string) returns (r: Result<(), string>)
      modifies this
      ensures Call(r, State()) == Trello.AttachTextFile(old(State()), cardId, filename, content)
    {
      r := Upload(cardId, Attachment(filename, TextMime, "", TextBody(content)));
    }

    method AttachBinaryFile(cardId: string, filename: string, data: seq<bv8>, mimeType: string) returns (r: Result<(), string>)
      modifies this
      ensures Call(r, State()) == Trello.AttachBinaryFile(old(State()), cardId, filename, data, mimeType)
    {
      r := Upload(cardId, Attachment(filename, mimeType, "", BytesBody(data)));
    }

    method Upload(cardId: string, a: Attachment) returns (r: Result<(), string>)
      modifies this
      ensures Call(r, State()) == Trello.Attach(old(State()), cardId, a)
    {
      var ok := Request();
      if !ok {
        return Failure(RequestFailed);
      }
      if cardId != card.id {
        return Failure(CardNotFound);
      }
      card := card.(attachments := card.attachments + [a]);
      log := log + [Attached(a.name)];
      return Success(());
    }

    method MoveCardToList(cardId: string, listName: string) returns (r: Result<(), string>)
      modifies this
      ensures Call(r, State()) == Trello.MoveCardToList(old(State()), cardId, listName)
    {
      var ok := Request();
      if !ok {
        return Failure(RequestFailed);
      }
      var target: Option<nat> := None;
      var i := 0;
      while i < |lists|
        invariant 0 <= i <= |lists|
        invariant forall j :: 0 <= j < i ==> !SameName(lists[j].name, listName)
      {
        if Lower(lists[i].name) == Lower(listName) {
          Trello.FirstListIsFound(lists, listName, i);
          target := Some(i);
          break;
        }
        i := i + 1;
      }
      if target.None? {
        return Failure(ListNotFound(listName));
      }
      var listId := lists[target.value].id;
      ok := Request();
      if !ok {
        return Failure(RequestFailed);
      }
      if cardId != card.id {
        return Failure(CardNotFound);
      }
      card := card.(listId := listId);
      log := log + [Moved(listId)];
      return Success(());
    }
  }
}

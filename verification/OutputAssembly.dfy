/** The output assembler of internal/adapter/shared/shared.go: one message item
    for all text, calls in arrival order. */
module OutputAssembly {
  import opened Common

  datatype Item = Message(id: string, status: string, text: string)
                | FunctionCall(callId: string, name: string, namespace: string, args: string)

  /** A None in `items` is the reserved message slot. */
  datatype Assembly = Assembly(messageId: string, status: string, items: seq<Option<Item>>, textSlot: Option<nat>, text: string)

  function Empty(messageId: string): Assembly { Assembly(messageId, "", [], None, "") }

  function Reserved(a: Assembly): Assembly {
    if a.textSlot.Some? then a else a.(textSlot := Some(|a.items|), items := a.items + [None])
  }

  function WithText(a: Assembly, fragment: string): Assembly { a.(text := a.text + fragment) }

  function WithItem(a: Assembly, item: Item): Assembly { a.(items := a.items + [Some(item)]) }

  function TheMessage(a: Assembly): Item { Message(a.messageId, a.status, a.text) }

  function Rendered(a: Assembly): seq<Option<Item>> {
    if a.textSlot.Some? then
      if a.textSlot.value < |a.items| then a.items[a.textSlot.value := Some(TheMessage(a))] else a.items
    else if a.text != "" then [Some(TheMessage(a))] + a.items
    else a.items
  }

  /** The reserved slot, and only it, is empty. */
  ghost predicate Sound(a: Assembly) {
    && (a.textSlot.Some? ==> a.textSlot.value < |a.items|)
    && forall i :: 0 <= i < |a.items| ==> (a.items[i].None? <==> a.textSlot == Some(i))
  }

  lemma {:induction false} UseStaysSound(a: Assembly, fragment: string, item: Item)
    requires Sound(a)
    ensures Sound(Reserved(a)) && Sound(WithText(a, fragment)) && Sound(WithItem(a, item))
  {
  }

  /** A rendered output has no hole, keeps every call in order, and holds all
      text exactly once: in the reserved slot, or leading, or not at all. */
  lemma {:induction false} RenderIsFull(a: Assembly)
    requires Sound(a)
    ensures var r := Rendered(a);
            && (forall i :: 0 <= i < |r| ==> r[i].Some?)
            && (a.textSlot.Some? ==> |r| == |a.items| && r[a.textSlot.value] == Some(TheMessage(a))
                                     && forall i :: 0 <= i < |r| && i != a.textSlot.value ==> r[i] == a.items[i])
            && (a.textSlot.None? && a.text != "" ==> r == [Some(TheMessage(a))] + a.items)
            && (a.textSlot.None? && a.text == "" ==> r == a.items)
  {
  }

  class OutputAssembler {
    var messageId: string
    var messageStatus: string
    var items: seq<Option<Item>>
    var textSlot: Option<nat>
    var text: string

    ghost function State(): Assembly
      reads this
    {
      Assembly(messageId, messageStatus, items, textSlot, text)
    }

    constructor (messageId: string)
      ensures State() == Empty(messageId)
    {
      this.messageId, messageStatus, items, textSlot, text := messageId, "", [], None, "";
    }

    method ReserveTextSlot()
      modifies `textSlot, `items
      ensures State() == Reserved(old(State()))
    {
      if textSlot.Some? {
        return;
      }
      textSlot := Some(|items|);
      items := items + [None];
    }

    method AddText(fragment: string)
      modifies `text
      ensures State() == WithText(old(State()), fragment)
    {
      text := text + fragment;
    }

    method AppendFunctionCall(callId: string, name: string, args: string)
      modifies `items
      ensures State() == WithItem(old(State()), FunctionCall(callId, name, "", args))
    {
      items := items + [Some(FunctionCall(callId, name, "", args))];
    }

    /** Fills the reserved slot in place, as the terminal does. */
    method Render() returns (output: seq<Option<Item>>)
      requires Sound(State())
      modifies `items
      ensures output == Rendered(old(State())) && items == output
    {
      if text != "" || textSlot.Some? {
        var message := Message(messageId, messageStatus, text);
        if textSlot.Some? {
          items := items[textSlot.value := Some(message)];
        } else {
          items := [Some(message)] + items;
        }
      }
      output := items;
    }
  }
}

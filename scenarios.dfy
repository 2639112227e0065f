/**
 * Sequences of host commands and picker events run against a fresh plugin,
 * with what the host receives. They follow from the plugin's contracts alone.
 */
module Scenarios {
  import opened Wrappers
  import opened DocumentTypes
  import opened Arguments
  import opened Picker

  /** A request that names a category, then a pick: one OK result, addressed to the request. */
  method RequestThenPick(args: seq<Argument>, token: string, url: string)
    returns (sent: seq<Message>, filters: seq<seq<string>>)
    requires Folded(args) != []
    ensures sent == [Message(Ok, url, Some(token))]
    ensures filters == [Utis(Folded(args))]
  {
    var p := new DocumentPicker();
    p.GetFile(args, token);
    p.DidPickDocumentsAt([url]);
    sent, filters := p.outbox, p.presentations;
  }

  /** A request, then a cancel: one error addressed to the request, and the slot still holds it. */
  method RequestThenCancel(args: seq<Argument>, token: string)
    returns (sent: seq<Message>, slot: Option<string>)
    requires Folded(args) != []
    ensures sent == [Message(Error, CancelledError, Some(token))]
    ensures slot == Some(token)
  {
    var p := new DocumentPicker();
    p.GetFile(args, token);
    p.WasCancelled();
    sent, slot := p.outbox, p.commandCallback;
  }

  /**
   * A request naming no category on a fresh plugin: the error is addressed to
   * the empty slot, not to the request, and no picker is shown.
   */
  method EmptyRequest(args: seq<Argument>, token: string)
    returns (sent: seq<Message>, filters: seq<seq<string>>)
    requires Folded(args) == []
    ensures sent == [Message(Error, NoArgumentsError, None)]
    ensures filters == []
  {
    var p := new DocumentPicker();
    p.GetFile(args, token);
    sent, filters := p.outbox, p.presentations;
  }

  /** While a request is pending, an empty request's error is delivered to the pending request. */
  method EmptyRequestWhilePending(args: seq<Argument>, first: string, empty: seq<Argument>, second: string)
    returns (sent: seq<Message>, slot: Option<string>)
    requires Folded(args) != [] && Folded(empty) == []
    ensures sent == [Message(Error, NoArgumentsError, Some(first))]
    ensures slot == Some(first)
  {
    var p := new DocumentPicker();
    p.GetFile(args, first);
    p.GetFile(empty, second);
    sent, slot := p.outbox, p.commandCallback;
  }

  /** A second request abandons the first: the pick is delivered to the second only. */
  method SecondRequestAbandonsFirst(args: seq<Argument>, first: string, second: string, url: string)
    returns (sent: seq<Message>)
    requires Folded(args) != []
    ensures sent == [Message(Ok, url, Some(second))]
  {
    var p := new DocumentPicker();
    p.GetFile(args, first);
    p.GetFile(args, second);
    p.DidPickDocumentAt(url);
    sent := p.outbox;
  }

  /** A second pick after the slot was cleared goes to no callback id. */
  method PickTwice(args: seq<Argument>, token: string, a: string, b: string)
    returns (sent: seq<Message>)
    requires Folded(args) != []
    ensures sent == [Message(Ok, a, Some(token)), Message(Ok, b, None)]
  {
    var p := new DocumentPicker();
    p.GetFile(args, token);
    p.DocumentWasSelected(a);
    p.DocumentWasSelected(b);
    sent := p.outbox;
  }

  /** Cancel keeps the slot, so a later pick reaches the same request a second time. */
  method CancelThenPick(args: seq<Argument>, token: string, url: string)
    returns (sent: seq<Message>)
    requires Folded(args) != []
    ensures sent == [Message(Error, CancelledError, Some(token)), Message(Ok, url, Some(token))]
  {
    var p := new DocumentPicker();
    p.GetFile(args, token);
    p.WasCancelled();
    p.DidPickDocumentsAt([url, "ignored"]);
    sent := p.outbox;
  }

  /** An empty URL list from the picker sends nothing and keeps the request pending. */
  method EmptyPick(args: seq<Argument>, token: string)
    returns (sent: seq<Message>, slot: Option<string>)
    requires Folded(args) != []
    ensures sent == [] && slot == Some(token)
  {
    var p := new DocumentPicker();
    p.GetFile(args, token);
    p.DidPickDocumentsAt([]);
    sent, slot := p.outbox, p.commandCallback;
  }

  /**
   * A cancel keeps the slot, so a later request naming no category sends its
   * error to the cancelled request too: two responses for one request.
   */
  method CancelThenEmptyRequest(args: seq<Argument>, token: string, empty: seq<Argument>, other: string)
    returns (sent: seq<Message>)
    requires Folded(args) != [] && Folded(empty) == []
    ensures sent == [Message(Error, CancelledError, Some(token)), Message(Error, NoArgumentsError, Some(token))]
  {
    var p := new DocumentPicker();
    p.GetFile(args, token);
    p.WasCancelled();
    p.GetFile(empty, other);
    sent := p.outbox;
  }
}

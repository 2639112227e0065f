/**
 * The plugin object: one slot holding the callback id of the request in
 * flight, the messages sent back to the host, and the filter lists the native
 * picker was presented with.
 */
module Picker {
  import opened Wrappers
  import opened DocumentTypes
  import opened Arguments

  /** The two command statuses the plugin sends. */
  datatype Status = Ok | Error

  /** One result sent to the host: its status, its message and the callback id it is addressed to. */
  datatype Message = Message(status: Status, message: string, callbackId: Option<string>)

  /** The error sent when the arguments name no known category. */
  const NoArgumentsError: string := "Didn't receive any argument."

  /** The error sent when the user dismisses the picker. */
  const CancelledError: string := "User canceled."

  class DocumentPicker {
    /** The callback id results are addressed to; `nil` in Swift is None. */
    var commandCallback: Option<string>
    /** Every result sent through the command delegate, oldest first. */
    var outbox: seq<Message>
    /** The filter list of every picker presented, oldest first. */
    var presentations: seq<seq<string>>

    constructor ()
      ensures commandCallback == None && outbox == [] && presentations == []
    {
      commandCallback := None;
      outbox := [];
      presentations := [];
    }

    /** Sends a result to whatever the slot holds at this moment. */
    method SendResult(status: Status, message: string)
      modifies this`outbox
      ensures outbox == old(outbox) + [Message(status, message, commandCallback)]
    {
      outbox := outbox + [Message(status, message, commandCallback)];
    }

    /** Sends an error result; the slot is neither read early nor cleared. */
    method SendError(message: string)
      modifies this`outbox
      ensures outbox == old(outbox) + [Message(Error, message, commandCallback)]
    {
      SendResult(Error, message);
    }

    /** Maps the categories to identifiers and presents a picker filtered by them. */
    method CallPicker(documentTypes: seq<DocumentType>)
      modifies this`presentations
      ensures presentations == old(presentations) + [Utis(documentTypes)]
    {
      var utis := Utis(documentTypes);
      presentations := presentations + [utis];
    }

    /**
     * The `getFile` command. With no recognised category the error goes to the
     * slot as it was before this command; otherwise the command's callback id
     * takes the slot and a picker is presented.
     */
    method GetFile(arguments: seq<Argument>, callbackId: string)
      modifies this
      ensures Folded(arguments) == [] ==>
                outbox == old(outbox) + [Message(Error, NoArgumentsError, old(commandCallback))]
                && commandCallback == old(commandCallback)
                && presentations == old(presentations)
      ensures Folded(arguments) != [] ==>
                outbox == old(outbox)
                && commandCallback == Some(callbackId)
                && presentations == old(presentations) + [Utis(Folded(arguments))]
    {
      var types := FoldArguments(arguments);
      if types == [] {
        SendError(NoArgumentsError);
      } else {
        commandCallback := Some(callbackId);
        CallPicker(types);
      }
    }

    /** Sends the document's location as an OK result, then clears the slot. */
    method DocumentWasSelected(document: string)
      modifies this`outbox, this`commandCallback
      ensures outbox == old(outbox) + [Message(Ok, document, old(commandCallback))]
      ensures commandCallback == None
    {
      SendResult(Ok, document);
      commandCallback := None;
    }

    /** The iOS 11 delegate callback: the first URL wins, an empty list does nothing. */
    method DidPickDocumentsAt(urls: seq<string>)
      modifies this`outbox, this`commandCallback
      ensures urls == [] ==> outbox == old(outbox) && commandCallback == old(commandCallback)
      ensures urls != [] ==>
                outbox == old(outbox) + [Message(Ok, urls[0], old(commandCallback))]
                && commandCallback == None
    {
      if urls != [] {
        DocumentWasSelected(urls[0]);
      }
    }

    /** The legacy single-document delegate callback. */
    method DidPickDocumentAt(url: string)
      modifies this`outbox, this`commandCallback
      ensures outbox == old(outbox) + [Message(Ok, url, old(commandCallback))]
      ensures commandCallback == None
    {
      DocumentWasSelected(url);
    }

    /** The user dismissed the picker: an error goes to the slot, which keeps its value. */
    method WasCancelled()
      modifies this`outbox
      ensures outbox == old(outbox) + [Message(Error, CancelledError, commandCallback)]
    {
      SendError(CancelledError);
    }
  }
}

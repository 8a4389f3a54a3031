/** The frame builders in the shape of the program: an object whose methods append to its encoder
    and set its two labels. */
module OutgoingMessages {
  import opened Encoding
  import opened Frames
  import opened Wrappers

  class OutgoingMessage {
    var encoder: Bytes
    var messageType: Option<u64>
    var category: Option<string>

    constructor (address: Bytes)
      requires |address| <= MAX_SLICE
      ensures encoder == EncodeField(address) && messageType == None && category == None
    {
      encoder := [];
      messageType, category := None, None;
      new;
      encoder := WriteVarBytes([], address);
    }

    method CreateSyncMessage()
      modifies this
      ensures encoder == old(encoder) + EncodeUint(SYNC)
      ensures messageType == Some(SYNC) && category == old(category)
    {
      hide EncodeUint, EncodeField;
      messageType := Some(SYNC);
      encoder := WriteVarUint(encoder, SYNC);
    }

    method CreateSyncReplyMessage()
      modifies this
      ensures encoder == old(encoder) + EncodeUint(SYNC_REPLY)
      ensures messageType == Some(SYNC_REPLY) && category == old(category)
    {
      hide EncodeUint, EncodeField;
      messageType := Some(SYNC_REPLY);
      encoder := WriteVarUint(encoder, SYNC_REPLY);
    }

    method WriteFirstSyncStepFor(vector: Bytes)
      requires |vector| <= MAX_SLICE
      modifies this
      ensures encoder == old(encoder) + EncodeStep(Step1(vector))
      ensures messageType == old(messageType) && category == Some("SyncStep1")
    {
      hide EncodeUint, EncodeField;
      category := Some("SyncStep1");
      encoder := WriteVarUint(encoder, 0);
      encoder := WriteVarBytes(encoder, vector);
    }

    method WriteSyncStep2(update: Bytes)
      requires |update| <= MAX_SLICE
      modifies this
      ensures encoder == old(encoder) + EncodeStep(Step2(update))
      ensures messageType == old(messageType) && category == Some("SyncStep2")
    {
      hide EncodeUint, EncodeField;
      category := Some("SyncStep2");
      encoder := WriteVarUint(encoder, 1);
      encoder := WriteVarBytes(encoder, update);
    }

    method WriteUpdate(update: Bytes)
      requires |update| <= MAX_SLICE
      modifies this
      ensures encoder == old(encoder) + EncodeStep(Update(update))
      ensures messageType == old(messageType) && category == Some("Update")
    {
      hide EncodeUint, EncodeField;
      category := Some("Update");
      encoder := WriteVarUint(encoder, 2);
      encoder := WriteVarBytes(encoder, update);
    }

    method CreateAwarenessUpdateMessage(update: Bytes)
      requires |update| <= MAX_SLICE
      modifies this
      ensures encoder == old(encoder) + EncodeBody(Awareness(update))
      ensures messageType == Some(AWARENESS) && category == Some("Update")
    {
      hide EncodeUint, EncodeField;
      messageType, category := Some(AWARENESS), Some("Update");
      encoder := WriteVarUint(encoder, AWARENESS);
      encoder := WriteVarBytes(encoder, update);
    }

    method WriteQueryAwareness()
      modifies this
      ensures encoder == old(encoder) + EncodeBody(QueryAwareness)
      ensures messageType == Some(QUERY_AWARENESS) && category == Some("Update")
    {
      hide EncodeUint, EncodeField;
      messageType, category := Some(QUERY_AWARENESS), Some("Update");
      encoder := WriteVarUint(encoder, QUERY_AWARENESS);
    }

    method WriteTokenSyncRequest()
      modifies this
      ensures encoder == old(encoder) + EncodeBody(TokenSyncRequest)
      ensures messageType == Some(AUTH) && category == Some("TokenSync")
    {
      hide EncodeUint, EncodeField;
      messageType, category := Some(AUTH), Some("TokenSync");
      encoder := WriteVarUint(encoder, AUTH);
      encoder := WriteVarUint(encoder, TOKEN);
    }

    method WriteAuthenticated(readOnly: bool)
      modifies this
      ensures encoder == old(encoder) + EncodeBody(Authenticated(readOnly))
      ensures messageType == Some(AUTH) && category == Some("Authenticated")
    {
      hide EncodeUint, EncodeField, Ascii;
      messageType, category := Some(AUTH), Some("Authenticated");
      encoder := WriteVarUint(encoder, AUTH);
      encoder := WriteVarUint(encoder, AUTHENTICATED);
      encoder := WriteVarBytes(encoder, if readOnly then Ascii("readonly") else Ascii("read-write"));
    }

    method WritePermissionDenied(reason: Bytes)
      requires |reason| <= MAX_SLICE
      modifies this
      ensures encoder == old(encoder) + EncodeBody(PermissionDenied(reason))
      ensures messageType == Some(AUTH) && category == Some("PermissionDenied")
    {
      hide EncodeUint, EncodeField;
      messageType, category := Some(AUTH), Some("PermissionDenied");
      encoder := WriteVarUint(encoder, AUTH);
      encoder := WriteVarUint(encoder, PERMISSION_DENIED);
      encoder := WriteVarBytes(encoder, reason);
    }

    method WriteStateless(payload: Bytes)
      requires |payload| <= MAX_SLICE
      modifies this
      ensures encoder == old(encoder) + EncodeBody(Stateless(payload))
      ensures messageType == old(messageType) && category == Some("Stateless")
    {
      hide EncodeUint, EncodeField;
      category := Some("Stateless");
      encoder := WriteVarUint(encoder, STATELESS);
      encoder := WriteVarBytes(encoder, payload);
    }

    method WriteBroadcastStateless(payload: Bytes)
      requires |payload| <= MAX_SLICE
      modifies this
      ensures encoder == old(encoder) + EncodeBody(BroadcastStateless(payload))
      ensures messageType == old(messageType) && category == Some("Stateless")
    {
      hide EncodeUint, EncodeField;
      category := Some("Stateless");
      encoder := WriteVarUint(encoder, BROADCAST_STATELESS);
      encoder := WriteVarBytes(encoder, payload);
    }

    method WriteSyncStatus(saved: bool)
      modifies this
      ensures encoder == old(encoder) + EncodeBody(SyncStatus(saved))
      ensures messageType == old(messageType) && category == Some("SyncStatus")
    {
      hide EncodeUint, EncodeField;
      category := Some("SyncStatus");
      encoder := WriteVarUint(encoder, SYNC_STATUS);
      encoder := WriteVarUint(encoder, if saved then 1 else 0);
    }

    method WriteCloseMessage(reason: Bytes)
      requires |reason| <= MAX_SLICE
      modifies this
      ensures encoder == old(encoder) + EncodeBody(Close(reason))
      ensures messageType == Some(CLOSE) && category == old(category)
    {
      hide EncodeUint, EncodeField;
      messageType := Some(CLOSE);
      encoder := WriteVarUint(encoder, CLOSE);
      encoder := WriteVarBytes(encoder, reason);
    }
  }
}

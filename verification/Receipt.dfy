/**
 Receipts: the builder of the per-request event log (`src/aci/receipt.rs`), its wire
 tree (`src/aci/types.rs`), and the independent verifier
 (`examples/verify_aci_artifacts.rs`).  Signing, verification and hex are arguments.
 */
module Receipt {
  import opened Basics
  import opened Json
  import opened Canonical
  import opened Keyset

  const REQUEST_RECEIVED := "request.received"
  const REQUEST_FORWARDED := "request.forwarded"
  const UPSTREAM_VERIFIED := "upstream.verified"
  const RESPONSE_RECEIVED := "response.received"
  const RESPONSE_RETURNED := "response.returned"

  datatype Event = Event(number: U64, eventType: string, fields: Value)
  datatype Signature = Signature(algo: string, keyId: string, value: string)
  datatype Receipt = Receipt(
    apiVersion: string, receiptId: string, chatId: Option<string>, model: Option<string>,
    workloadId: string, keysetDigest: string, endpoint: string, httpMethod: string, servedAt: U64,
    eventLog: seq<Event>, signature: Signature)

  // ----- wire trees -----

  /** `seq` and `type` flattened into the same object as the event's own fields. */
  function EventValue(e: Event): Value {
    var base := map["seq" := Int(e.number), "type" := Str(e.eventType)];
    Obj(if e.fields.Obj? then base + e.fields.fields else base)
  }

  function EventList(events: seq<Event>): Value {
    Arr(seq(|events|, i requires 0 <= i < |events| => EventValue(events[i])))
  }

  function SignatureValue(s: Signature, withValue: bool): Value {
    var base := map["algo" := Str(s.algo), "key_id" := Str(s.keyId)];
    Obj(if withValue then base["value" := Str(s.value)] else base)
  }

  /** `Receipt::to_canonical_value`. */
  function ReceiptValue(r: Receipt, withValue: bool): (v: Value)
    ensures v.Obj?
  {
    Obj(map[
      "api_version" := Str(r.apiVersion),
      "receipt_id" := Str(r.receiptId),
      "chat_id" := OptStr(r.chatId),
      "model" := OptStr(r.model),
      "workload_id" := Str(r.workloadId),
      "workload_keyset_digest" := Str(r.keysetDigest),
      "endpoint" := Str(r.endpoint),
      "method" := Str(r.httpMethod),
      "served_at" := Int(r.servedAt),
      "event_log" := EventList(r.eventLog),
      "signature" := SignatureValue(r.signature, withValue)
    ])
  }

  // ----- the builder -----

  predicate Reserved(fields: Value) {
    fields.Obj? && ("seq" in fields.fields || "type" in fields.fields)
  }

  /** The log a builder keeps: numbered by position, opened by `request.received`. */
  predicate WellNumbered(events: seq<Event>) {
    && (forall i :: 0 <= i < |events| ==> events[i].number == i && !Reserved(events[i].fields))
    && (events != [] ==> events[0].eventType == REQUEST_RECEIVED)
  }

  datatype ReceiptError =
    | FirstEventMustBeRequestReceived | MissingRequiredEvent(name: string) | EmptyReceipt
    | ReservedField | ReservedEventType | Canonical | UnknownReceiptKeyId | SigningFailed

  /** The signing half of `KeyProvider`. */
  datatype KeyProvider = KeyProvider(receiptKeys: seq<KeyedPublicKey>, sign: (string, seq<Byte>) -> Option<seq<Byte>>)

  predicate Present(events: seq<Event>, eventType: string) {
    exists i :: 0 <= i < |events| && events[i].eventType == eventType
  }

  /** `iter().find(|k| k.key_id == key_id)`. */
  function FindKey(keys: seq<KeyedPublicKey>, keyId: string): (r: Option<KeyedPublicKey>)
    ensures r.Some? ==> r.value.keyId == keyId
  {
    if keys == [] then None else if keys[0].keyId == keyId then Some(keys[0]) else FindKey(keys[1..], keyId)
  }

  class Builder {
    var header: Receipt  // every field but the log and the signature
    var events: seq<Event>
    var nextSeq: U64

    ghost predicate Valid()
      reads this
    {
      nextSeq == |events| && WellNumbered(events)
    }

    constructor (header: Receipt)
      ensures Valid() && events == [] && this.header == header
    {
      this.header, events, nextSeq := header, [], 0;
    }

    /** `append`: refuses a wrong first event and a field that would shadow `seq` or `type`. */
    method Append(eventType: string, fields: Value) returns (r: Result<(), ReceiptError>)
      requires Valid() && nextSeq < U64_MAX
      modifies this
      ensures Valid() && header == old(header)
      ensures r.Err? <==> (old(events) == [] && eventType != "request.received") || Reserved(fields)
      ensures r.Err? ==> events == old(events)
      ensures r.Ok? ==> events == old(events) + [Event(|old(events)|, eventType, fields)]
      ensures r.Err? ==> r.error == if old(events) == [] && eventType != "request.received"
                                    then FirstEventMustBeRequestReceived else ReservedField
    {
      if nextSeq == 0 && eventType != REQUEST_RECEIVED {
        return Err(FirstEventMustBeRequestReceived);
      }
      if Reserved(fields) {
        return Err(ReservedField);
      }
      events := events + [Event(nextSeq, eventType, fields)];
      nextSeq := nextSeq + 1;
      return Ok(());
    }

    /** `add_extension_event`: the protocol's own event types are out of reach. */
    method AddExtensionEvent(eventType: string, fields: Value) returns (r: Result<(), ReceiptError>)
      requires Valid() && nextSeq < U64_MAX
      modifies this
      ensures Valid() && header == old(header)
      ensures r.Ok? ==> events == old(events) + [Event(|old(events)|, eventType, fields)]
      ensures r.Err? ==> events == old(events)
      ensures forall t :: t in {"request.received", "request.forwarded", "upstream.verified", "response.received",
          "response.returned"}
                ==> (Present(events, t) <==> Present(old(events), t))
      ensures r == Err(ReservedEventType) <==>
          eventType in {"request.received", "request.forwarded", "upstream.verified",
          "response.received", "response.returned"}
    {
      if eventType == REQUEST_RECEIVED || eventType == REQUEST_FORWARDED || eventType == UPSTREAM_VERIFIED
         || eventType == RESPONSE_RECEIVED || eventType == RESPONSE_RETURNED {
        return Err(ReservedEventType);
      }
      r := Append(eventType, fields);
      assert forall i :: 0 <= i < |old(events)| ==> events[i] == old(events)[i];
    }

    /** `set_upstream_verified_model_id`: edits the first such event in place, and no other. */
    method SetUpstreamVerifiedModelId(modelId: Option<string>)
      requires Valid()
      modifies this`events
      ensures Valid() && |events| == |old(events)|
      ensures forall i :: 0 <= i < |events| ==>
                events[i] == if old(events)[i].eventType == "upstream.verified"
                    && !Present(old(events)[..i], "upstream.verified")
                             then WithModelId(old(events)[i], modelId) else old(events)[i]
    {
      for i := 0 to |events|
        invariant events == old(events)
        invariant !Present(events[..i], UPSTREAM_VERIFIED)
      {
        if events[i].eventType == UPSTREAM_VERIFIED {
          events := events[i := WithModelId(events[i], modelId)];
          assert forall j :: i < j < |events| ==> old(events)[..j][i].eventType == UPSTREAM_VERIFIED;
          forall j | 0 <= j < i ensures events[j].eventType != UPSTREAM_VERIFIED {
            assert old(events)[..i][j] == events[j];
          }
          return;
        }
      }
      assert events[..|events|] == events;
    }

    /** `finalize`: on success the receipt carries the whole log, and its signature is the
        provider's over the canonical bytes of the receipt without `signature.value`. */
    method Finalize(keys: KeyProvider, keyId: string, hex: seq<Byte> -> string)
        returns (r: Result<Receipt, ReceiptError>)
      requires Valid()
      ensures r.Ok? ==> FinalizedBy(r.value, header, events, keys, keyId, hex)
      ensures r.Ok? <==>
                && Present(events, "request.received") && Present(events, "request.forwarded")
                && Present(events, "response.returned")
                && FindKey(keys.receiptKeys, keyId).Some?
                && IntegerOnly(EventList(events))
                && keys.sign(keyId, Encode(ReceiptValue(Unsigned(header, events, keys, keyId), false))).Some?
      ensures r.Err? && events == [] ==> r.error == EmptyReceipt
      ensures r.Err? && events != [] && FindKey(keys.receiptKeys, keyId).Some? && IntegerOnly(EventList(events))
              && r.error != SigningFailed ==>
                exists t :: t in {"request.received", "request.forwarded", "response.returned"} && !Present(events, t)
                  && r.error == MissingRequiredEvent(t)
    {
      if events == [] { return Err(EmptyReceipt); }
      if !Present(events, REQUEST_RECEIVED) { return Err(MissingRequiredEvent(REQUEST_RECEIVED)); }
      if !Present(events, REQUEST_FORWARDED) { return Err(MissingRequiredEvent(REQUEST_FORWARDED)); }
      if !Present(events, RESPONSE_RETURNED) { return Err(MissingRequiredEvent(RESPONSE_RETURNED)); }
      var key := FindKey(keys.receiptKeys, keyId);
      if key.None? { return Err(UnknownReceiptKeyId); }
      var unsigned := Unsigned(header, events, keys, keyId);
      var bytes := Canonicalize(ReceiptValue(unsigned, false));
      IntegerReceipt(unsigned, false);
      if bytes.Err? { return Err(Canonical); }
      var sig := keys.sign(key.value.keyId, bytes.value);
      if sig.None? { return Err(SigningFailed); }
      return Ok(unsigned.(signature := unsigned.signature.(value := hex(sig.value))));
    }
  }

  /** Only the model id changes, in events whose fields are an object. */
  lemma ModelIdReads(e: Event, modelId: Option<string>, key: string)
    ensures var t := WithModelId(e, modelId);
      && t.eventType == e.eventType && t.number == e.number
      && Get(t.fields, key) == if key == "model_id" && e.fields.Obj?
                               then Some(Str(if modelId.Some? then modelId.value else "unknown"))
                                   else Get(e.fields, key)
  {
  }

  function WithModelId(e: Event, modelId: Option<string>): Event {
    if e.fields.Obj? then
      e.(fields := Obj(e.fields.fields["model_id" := Str(if modelId.Some? then modelId.value else "unknown")]))
    else e
  }

  /** The receipt before signing: the key's own algorithm and id, an empty value. */
  function Unsigned(header: Receipt, events: seq<Event>, keys: KeyProvider, keyId: string): Receipt {
    var key := FindKey(keys.receiptKeys, keyId);
    header.(apiVersion := "aci/1", eventLog := events,
            signature := Signature(if key.Some? then key.value.algo else "", keyId, ""))
  }

  lemma IntegerReceipt(r: Receipt, withValue: bool)
    ensures IntegerOnly(ReceiptValue(r, withValue)) <==> IntegerOnly(EventList(r.eventLog))
  {
    var m := ReceiptValue(r, withValue).fields;
    assert m["event_log"] == EventList(r.eventLog);
    assert IntegerOnly(SignatureValue(r.signature, withValue));
    assert forall k :: k in m && k != "event_log" ==> IntegerOnly(m[k]);
  }

  /** `canonical_bytes_for_signing`. */
  ghost function SignedBytes(r: Receipt): seq<Byte>
    requires IntegerOnly(ReceiptValue(r, false))
  {
    Encode(ReceiptValue(r, false))
  }

  /** `r` is the log `events` under `header`, signed by the named key of the provider. */
  ghost predicate FinalizedBy(r: Receipt, header: Receipt, events: seq<Event>, keys: KeyProvider, keyId: string,
      hex: seq<Byte> -> string) {
    && r == header.(apiVersion := "aci/1", eventLog := events, signature := r.signature)
    && IntegerOnly(ReceiptValue(r, false))
    && r.signature.keyId == keyId
    && (var key := FindKey(keys.receiptKeys, keyId);
        key.Some? && r.signature.algo == key.value.algo)
    && (var sig := keys.sign(keyId, SignedBytes(r));
        sig.Some? && r.signature.value == hex(sig.value))
  }

  /** A finalized log is numbered by position and opens with `request.received`. */
  lemma FinalizedLogIsNumbered(r: Receipt, header: Receipt, events: seq<Event>, keys: KeyProvider, keyId: string,
      hex: seq<Byte> -> string, i: nat)
    requires WellNumbered(events) && FinalizedBy(r, header, events, keys, keyId, hex) && i < |r.eventLog|
    ensures Get(EventValue(r.eventLog[i]), "seq") == Some(Int(i))
    ensures Get(EventValue(r.eventLog[i]), "type") == Some(Str(r.eventLog[i].eventType))
    ensures Get(EventValue(r.eventLog[0]), "type") == Some(Str("request.received"))
  {
    EventStructure(r.eventLog[i]);
    EventStructure(r.eventLog[0]);
  }

  lemma EventStructure(e: Event)
    requires !Reserved(e.fields)
    ensures Get(EventValue(e), "seq") == Some(Int(e.number))
    ensures Get(EventValue(e), "type") == Some(Str(e.eventType))
  {
  }

  // ----- the verifier -----

  datatype VerifyError = MissingSignature | MissingKeyId | UnknownKey | MissingValue | BadHex | NotCanonical

  /** The received tree with only `signature.value` removed. */
  function StripSignatureValue(receipt: Value): Value {
    var sig := Get(receipt, "signature");
    if sig.Some? && sig.value.Obj? then Obj(receipt.fields["signature" := Obj(sig.value.fields - {"value"})])
        else receipt
  }

  /** What `verify_receipt` decides about a received tree. */
  ghost function Verdict(receipt: Value, keys: seq<KeyedPublicKey>, unhex: string -> Option<seq<Byte>>,
                         verify: (KeyedPublicKey, seq<Byte>, seq<Byte>) -> bool): Result<bool, VerifyError>
  {
    var sig := Get(receipt, "signature");
    if sig.None? then Err(MissingSignature) else
    var keyId := AsStr(GetIn(sig, "key_id"));
    if keyId.None? then Err(MissingKeyId) else
    var key := FindKey(keys, keyId.value);
    if key.None? then Err(UnknownKey) else
    var value := AsStr(GetIn(sig, "value"));
    if value.None? then Err(MissingValue) else
    var raw := unhex(value.value);
    if raw.None? then Err(BadHex) else
    var unsigned := StripSignatureValue(receipt);
    if !IntegerOnly(unsigned) then Err(NotCanonical) else
    Ok(verify(key.value, Encode(unsigned), raw.value))
  }

  method VerifyReceipt(receipt: Value, keys: seq<KeyedPublicKey>, unhex: string -> Option<seq<Byte>>,
                       verify: (KeyedPublicKey, seq<Byte>, seq<Byte>) -> bool)
    returns (r: Result<bool, VerifyError>)
    ensures r == Verdict(receipt, keys, unhex, verify)
  {
    var sig := Get(receipt, "signature");
    if sig.None? { return Err(MissingSignature); }
    var keyId := AsStr(GetIn(sig, "key_id"));
    if keyId.None? { return Err(MissingKeyId); }
    var key := FindKey(keys, keyId.value);
    if key.None? { return Err(UnknownKey); }
    var value := AsStr(GetIn(sig, "value"));
    if value.None? { return Err(MissingValue); }
    var raw := unhex(value.value);
    if raw.None? { return Err(BadHex); }
    var bytes := Canonicalize(StripSignatureValue(receipt));
    if bytes.Err? { return Err(NotCanonical); }
    return Ok(verify(key.value, bytes.value, raw.value));
  }

  /** Stripping the served tree gives back exactly the tree that was signed. */
  lemma StripServed(r: Receipt)
    ensures StripSignatureValue(ReceiptValue(r, true)) == ReceiptValue(r, false)
  {
    var wire, bare := ReceiptValue(r, true), ReceiptValue(r, false);
    assert Get(wire, "signature") == Some(SignatureValue(r.signature, true));
    assert SignatureValue(r.signature, true).fields - {"value"} == SignatureValue(r.signature, false).fields;
    assert wire.fields["signature" := SignatureValue(r.signature, false)] == bare.fields;
  }

  /** Signer and verifier agree: a finalized receipt, served and checked against any keyset
      that lists the signing key under its id, is accepted exactly when the signature scheme
      accepts the provider's own signature. */
  lemma FinalizedReceiptVerdict(r: Receipt, header: Receipt, events: seq<Event>, keys: KeyProvider, keyId: string,
                                listed: seq<KeyedPublicKey>, hex: seq<Byte> -> string,
                                    unhex: string -> Option<seq<Byte>>,
                                verify: (KeyedPublicKey, seq<Byte>, seq<Byte>) -> bool)
    requires FinalizedBy(r, header, events, keys, keyId, hex)
    requires FindKey(listed, keyId) == FindKey(keys.receiptKeys, keyId)
    requires forall b :: unhex(hex(b)) == Some(b)
    ensures Verdict(ReceiptValue(r, true), listed, unhex, verify)
            == Ok(verify(FindKey(listed, keyId).value, SignedBytes(r), keys.sign(keyId, SignedBytes(r)).value))
  {
    StripServed(r);
    var wire := ReceiptValue(r, true);
    assert Get(wire, "signature") == Some(SignatureValue(r.signature, true));
    assert Get(SignatureValue(r.signature, true), "key_id") == Some(Str(keyId));
    assert Get(SignatureValue(r.signature, true), "value") == Some(Str(r.signature.value));
  }

  /** The key signs receipts and nothing else: whatever verifies under it is the signed bytes
      of one of them. */
  ghost predicate SignsOnly(verify: (KeyedPublicKey, seq<Byte>, seq<Byte>) -> bool, key: KeyedPublicKey,
      signed: iset<Receipt>) {
    && (forall r :: r in signed ==> IntegerOnly(ReceiptValue(r, false)))
    && forall m, sig :: verify(key, m, sig) ==> exists r :: r in signed && m == SignedBytes(r)
  }

  /** The listed key a received tree names. */
  function NamedKey(tree: Value, listed: seq<KeyedPublicKey>): Option<KeyedPublicKey> {
    var keyId := AsStr(GetIn(Get(tree, "signature"), "key_id"));
    if keyId.Some? then FindKey(listed, keyId.value) else None
  }

  /** No altered receipt passes: a received tree, whatever JSON it is, that the verifier
      accepts is, but for `signature.value`, the tree of a receipt the key has signed. */
  lemma AcceptedReceiptWasSigned(tree: Value, listed: seq<KeyedPublicKey>, unhex: string -> Option<seq<Byte>>,
                                 verify: (KeyedPublicKey, seq<Byte>, seq<Byte>) -> bool, signed: iset<Receipt>)
                                     returns (r: Receipt)
    requires Verdict(tree, listed, unhex, verify) == Ok(true)
    requires NamedKey(tree, listed).Some? ==> SignsOnly(verify, NamedKey(tree, listed).value, signed)
    ensures r in signed && StripSignatureValue(tree) == ReceiptValue(r, false)
  {
    var key := NamedKey(tree, listed).value;
    var bare := StripSignatureValue(tree);
    var raw := unhex(AsStr(GetIn(Get(tree, "signature"), "value")).value).value;
    assert verify(key, Encode(bare), raw);
    r :| r in signed && Encode(bare) == SignedBytes(r);
    EncodeInjective(bare, ReceiptValue(r, false));
  }

  // ----- signed bytes identify the receipt -----

  /** An event as the wire sees it: fields that are not an object contribute nothing. */
  function Flat(e: Event): Event {
    if e.fields.Obj? then e else e.(fields := Obj(map[]))
  }

  function FlatLog(events: seq<Event>): seq<Event> {
    seq(|events|, i requires 0 <= i < |events| => Flat(events[i]))
  }

  lemma EventInjective(a: Event, b: Event)
    requires !Reserved(a.fields) && !Reserved(b.fields) && EventValue(a) == EventValue(b)
    ensures Flat(a) == Flat(b)
  {
    EventStructure(a);
    EventStructure(b);
    var m, n := EventValue(a).fields, EventValue(b).fields;
    assert m - {"seq", "type"} == Flat(a).fields.fields && n - {"seq", "type"} == Flat(b).fields.fields;
  }

  lemma EventListInjective(a: seq<Event>, b: seq<Event>)
    requires WellNumbered(a) && WellNumbered(b)
    ensures EventList(a) == EventList(b) <==> FlatLog(a) == FlatLog(b)
  {
    var x, y := EventList(a).items, EventList(b).items;
    assert |x| == |a| && |y| == |b|;
    if EventList(a) == EventList(b) {
      forall i | 0 <= i < |a| ensures Flat(a[i]) == Flat(b[i]) {
        assert x[i] == EventValue(a[i]) && y[i] == EventValue(b[i]);
        EventInjective(a[i], b[i]);
      }
    }
    if FlatLog(a) == FlatLog(b) {
      assert |FlatLog(a)| == |a| && |FlatLog(b)| == |b|;
      forall i | 0 <= i < |a| ensures x[i] == y[i] {
        assert FlatLog(a)[i] == Flat(a[i]) && FlatLog(b)[i] == Flat(b[i]);
        assert EventValue(a[i]) == EventValue(Flat(a[i])) && EventValue(b[i]) == EventValue(Flat(b[i]));
      }
      assert x == y;
    }
  }

  /** Two receipts have the same signed bytes exactly when they agree on every wire field
      but the signature value: no signature covers two different logs. */
  lemma SignedBytesIdentify(a: Receipt, b: Receipt)
    requires WellNumbered(a.eventLog) && WellNumbered(b.eventLog)
    requires IntegerOnly(ReceiptValue(a, false)) && IntegerOnly(ReceiptValue(b, false))
    ensures SignedBytes(a) == SignedBytes(b) <==>
              && FlatLog(a.eventLog) == FlatLog(b.eventLog)
              && a.(eventLog := b.eventLog, signature := a.signature.(value := b.signature.value)) == b
  {
    EncodeInjective(ReceiptValue(a, false), ReceiptValue(b, false));
    EventListInjective(a.eventLog, b.eventLog);
    if SignedBytes(a) == SignedBytes(b) { HeaderInjective(a, b); }
  }

  lemma HeaderFields(r: Receipt)
    ensures var v := ReceiptValue(r, false);
      && Get(v, "api_version") == Some(Str(r.apiVersion)) && Get(v, "receipt_id") == Some(Str(r.receiptId))
      && Get(v, "chat_id") == Some(OptStr(r.chatId)) && Get(v, "model") == Some(OptStr(r.model))
      && Get(v, "workload_id") == Some(Str(r.workloadId))
      && Get(v, "workload_keyset_digest") == Some(Str(r.keysetDigest))
      && Get(v, "endpoint") == Some(Str(r.endpoint)) && Get(v, "method") == Some(Str(r.httpMethod))
      && Get(v, "served_at") == Some(Int(r.servedAt)) && Get(v, "event_log") == Some(EventList(r.eventLog))
      && Get(v, "signature") == Some(SignatureValue(r.signature, false))
  {
  }

  lemma HeaderInjective(a: Receipt, b: Receipt)
    requires ReceiptValue(a, false) == ReceiptValue(b, false)
    ensures a.(eventLog := b.eventLog, signature := a.signature.(value := b.signature.value)) == b
    ensures EventList(a.eventLog) == EventList(b.eventLog)
  {
    HeaderFields(a);
    HeaderFields(b);
    var s, t := SignatureValue(a.signature, false).fields, SignatureValue(b.signature, false).fields;
    assert s["algo"] == t["algo"] && s["key_id"] == t["key_id"];
  }
}

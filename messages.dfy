/**
 * The inbound message record and its log rendering. The Go field `Payload` is a
 * `json.RawMessage` (raw bytes); here it is the string those bytes convert to.
 */
module Messages {
  import opened Wrappers
  import opened Text

  const TypeKey := "{\"type\":\""
  const IdKey := "\",\"id\":\""
  const PayloadKey := "\",\"payload\":"
  const Quote := "\""

  /** A decoded inbound frame: `type`, `id` and the raw `payload` JSON. */
  datatype ReceivedMessage = ReceivedMessage(msgType: string, id: string, payload: string)
  {
    /**
     * Log rendering: fields in the order type, id, payload; type and id are quoted
     * without escaping, the payload is embedded verbatim. A function of the value,
     * so it cannot change the message.
     */
    function String(): (s: string)
      ensures |s| == 30 + |msgType| + |id| + |payload|
      ensures s[..9] == "{\"type\":\"" && s[|s| - 1] == '}'
    {
      TypeKey + msgType + IdKey + id + PayloadKey + payload + "}"
    }
  }

  /**
   * Where each part of the log line sits: the type key, the type, the id key, the
   * id, the payload key and the verbatim payload, then the closing brace.
   */
  lemma StringLayout(m: ReceivedMessage)
    ensures var s, t, i := m.String(), |m.msgType|, |m.id|;
      s[9..9 + t] == m.msgType &&
      s[9 + t..17 + t] == "\",\"id\":\"" &&
      s[17 + t..17 + t + i] == m.id &&
      s[17 + t + i..29 + t + i] == "\",\"payload\":" &&
      s[29 + t + i..|s| - 1] == m.payload
  {
  }

  /** The message left in place when `json.Unmarshal` rejects a frame outright. */
  const EmptyMessage := ReceivedMessage("", "", "")

  /** The pairing response payload: `{"client-key": ...}`. */
  datatype PayloadRegisterKey = PayloadRegisterKey(clientKey: string)

  /** Reads `","payload":` + payload + `}` back to the payload. */
  function ParsePayloadPart(tail: string): Option<string> {
    if |tail| < |PayloadKey| + 1 || tail[..|PayloadKey|] != PayloadKey || tail[|tail| - 1] != '}' then None
    else Some(tail[|PayloadKey|..|tail| - 1])
  }

  /** Reads id + `","payload":` + payload + `}` back: the id runs up to the first quote. */
  function ParseIdPart(afterId: string): Option<(string, string)> {
    match IndexOf(afterId, Quote)
    case None => None
    case Some(i) =>
      match ParsePayloadPart(afterId[i..])
      case None => None
      case Some(payload) => Some((afterId[..i], payload))
  }

  /** Reads type + `","id":"` + ... back: the type runs up to the first quote. */
  function ParseTypePart(afterType: string): Option<ReceivedMessage> {
    match IndexOf(afterType, Quote)
    case None => None
    case Some(t) =>
      var rest := afterType[t..];
      if |rest| < |IdKey| || rest[..|IdKey|] != IdKey then None
      else
        match ParseIdPart(rest[|IdKey|..])
        case None => None
        case Some(idAndPayload) => Some(ReceivedMessage(afterType[..t], idAndPayload.0, idAndPayload.1))
  }

  /** Reads a log line back into the message it renders. */
  function ParseString(s: string): Option<ReceivedMessage> {
    if |s| < |TypeKey| || s[..|TypeKey|] != TypeKey then None
    else ParseTypePart(s[|TypeKey|..])
  }

  /** In `a + b`, where `a` has no quote and `b` starts with one, the first quote is at `|a|`. */
  lemma FirstQuote(a: string, b: string)
    requires '"' !in a && |b| > 0 && b[0] == '"'
    ensures IndexOf(a + b, Quote) == Some(|a|)
  {
    var s := a + b;
    assert OccursAt(s, Quote, |a|) by { assert s[|a|..|a| + 1] == [b[0]]; }
    forall j | 0 <= j < |a| ensures !OccursAt(s, Quote, j) {
      assert s[j..j + 1] == [a[j]];
    }
    match IndexOf(s, Quote)
    case None =>
    case Some(k) =>
      assert !(k < |a|);
      assert !(|a| < k);
  }

  lemma ParsePayloadPartRoundTrip(payload: string)
    ensures ParsePayloadPart(PayloadKey + payload + "}") == Some(payload)
  {
    var tail := PayloadKey + payload + "}";
    assert tail[..|PayloadKey|] == PayloadKey;
    assert tail[|PayloadKey|..|tail| - 1] == payload;
  }

  lemma ParseIdPartRoundTrip(id: string, payload: string)
    requires '"' !in id
    ensures ParseIdPart(id + PayloadKey + payload + "}") == Some((id, payload))
  {
    var tail := PayloadKey + payload + "}";
    var afterId := id + PayloadKey + payload + "}";
    assert afterId == id + tail;
    FirstQuote(id, tail);
    assert afterId[|id|..] == tail;
    assert afterId[..|id|] == id;
    ParsePayloadPartRoundTrip(payload);
  }

  lemma ParseTypePartRoundTrip(m: ReceivedMessage)
    requires '"' !in m.msgType && '"' !in m.id
    ensures ParseTypePart(m.msgType + IdKey + m.id + PayloadKey + m.payload + "}") == Some(m)
  {
    var afterId := m.id + PayloadKey + m.payload + "}";
    var rest := IdKey + afterId;
    var afterType := m.msgType + IdKey + m.id + PayloadKey + m.payload + "}";
    assert afterType == m.msgType + rest;
    FirstQuote(m.msgType, rest);
    assert afterType[|m.msgType|..] == rest;
    assert afterType[..|m.msgType|] == m.msgType;
    assert rest[..|IdKey|] == IdKey && rest[|IdKey|..] == afterId;
    ParseIdPartRoundTrip(m.id, m.payload);
  }

  /** When type and id hold no quote, the log line determines the whole message. */
  lemma ParseStringRoundTrip(m: ReceivedMessage)
    requires '"' !in m.msgType && '"' !in m.id
    ensures ParseString(m.String()) == Some(m)
  {
    var afterType := m.msgType + IdKey + m.id + PayloadKey + m.payload + "}";
    var s := m.String();
    assert s == TypeKey + afterType;
    assert s[..|TypeKey|] == TypeKey && s[|TypeKey|..] == afterType;
    ParseTypePartRoundTrip(m);
  }

  /** Distinct quote-free messages never share a log line. */
  lemma StringInjective(a: ReceivedMessage, b: ReceivedMessage)
    requires '"' !in a.msgType && '"' !in a.id
    requires '"' !in b.msgType && '"' !in b.id
    ensures a.String() == b.String() <==> a == b
  {
    ParseStringRoundTrip(a);
    ParseStringRoundTrip(b);
  }

  /** Without the quote-free condition the rendering is ambiguous: two messages, one line. */
  lemma QuotedFieldsAreAmbiguous()
    ensures var a := ReceivedMessage("a\",\"id\":\"b", "c", "{}");
            var b := ReceivedMessage("a", "b\",\"id\":\"c", "{}");
            a != b && a.String() == b.String()
  {
    var a := ReceivedMessage("a\",\"id\":\"b", "c", "{}");
    var b := ReceivedMessage("a", "b\",\"id\":\"c", "{}");
    assert a.msgType != b.msgType;
  }
}

/**
 A SPINE payload inside a SHIP data message: `transformSpineDataIntoShipJson`
 patches the transformed payload into a transformed envelope, and the receiver
 undoes both at once.
 */
module ShipEnvelope {
  import opened Basics
  import opened TextReplacement
  import opened EebusJson

  // The member names and the protocol identifier as written.
  const D := "\"data\""
  const H := "\"header\""
  const P := "\"protocolId\""
  const V := "\"ee1.0\""
  const L := "\"payload\""

  /** The fields of a SHIP data message around a payload value. */
  function Envelope(payload: Json): seq<Field> {
    [Field(D, Obj([Field(H, Obj([Field(P, Scalar(V))])), Field(L, payload)]))]
  }

  const PLACEHOLDER := "[{\"place\":\"holder\"}]"

  const DATA := "{" + D + ":"
  const HEADER := "[{" + H + ":"
  const PROTOCOL := "[{" + P + ":" + V + "}]"
  const PAYLOAD := "},{" + L + ":"
  const BEFORE := DATA + HEADER + PROTOCOL + PAYLOAD
  const AFTER := "}]}"

  const PLAIN_BEFORE := DATA + ("{" + H + ":") + ("{" + P + ":" + V + "}") + ("," + L + ":")
  const PLAIN_AFTER := "}}"

  lemma PrintOne(st: Style, k: string, v: Json)
    ensures PrintFields(st, [Field(k, v)]) == k + ":" + Print(st, v)
  {
  }

  lemma PrintTwo(st: Style, k: string, v: Json, l: string, w: Json)
    ensures PrintFields(st, [Field(k, v), Field(l, w)]) == k + ":" + Print(st, v) + (st.sep + (l + ":" + Print(st, w)))
  {
    PrintOne(st, l, w);
    assert [Field(k, v), Field(l, w)][1..] == [Field(l, w)];
  }

  lemma EnvelopeShape(st: Style, d: string, h: string, p: string, t: string, l: string, payload: Json)
    ensures Print(st, Bare([Field(d, Obj([Field(h, Obj([Field(p, Scalar(t))])), Field(l, payload)]))]))
         == ("{" + d + ":") + (st.open + h + ":") + (st.open + p + ":" + t + st.close) + (st.sep + l + ":")
            + Print(st, payload) + (st.close + "}")
  {
    PrintOne(st, p, Scalar(t));
    PrintTwo(st, h, Obj([Field(p, Scalar(t))]), l, payload);
    PrintOne(st, d, Obj([Field(h, Obj([Field(p, Scalar(t))])), Field(l, payload)]));
  }

  lemma EnvelopeInEebus(payload: Json)
    ensures Print(EEBUS, Bare(Envelope(payload))) == BEFORE + Print(EEBUS, payload) + AFTER
  {
    EnvelopeShape(EEBUS, D, H, P, V, L, payload);
    assert EEBUS.close + "}" == AFTER;
  }

  lemma EnvelopeInStandard(payload: Json)
    ensures Print(STANDARD, Bare(Envelope(payload))) == PLAIN_BEFORE + Print(STANDARD, payload) + PLAIN_AFTER
  {
    EnvelopeShape(STANDARD, D, H, P, V, L, payload);
    assert STANDARD.close + "}" == PLAIN_AFTER;
  }

  lemma PlaceholderSeams()
    ensures |PLACEHOLDER| == 20 && PLACEHOLDER[0] == '[' && Last(PLACEHOLDER) == ']'
    ensures !Adjacent(PLACEHOLDER, ':', '[') && !Adjacent(PLACEHOLDER, ']', '}')
  {
  }

  lemma ProtocolUntouched(x: string)
    ensures ReplaceAll(PROTOCOL, PLACEHOLDER, x) == PROTOCOL
  {
    assert PROTOCOL[..20][4] == 'r' && PLACEHOLDER[4] == 'l';
    assert PROTOCOL == [PROTOCOL[0]] + PROTOCOL[1..];
    assert PROTOCOL[1..] == "{" + P + ":" + V + "}]";
    AbsentFirst(PROTOCOL[1..], PLACEHOLDER, x);
  }

  lemma FourPieces(a: string, b: string, c: string, d: string, p: string, x: string)
    requires |p| >= 2 && a != [] && b != [] && c != [] && d != []
    requires !Adjacent(p, Last(a), b[0]) && !Adjacent(p, Last(b), c[0]) && !Adjacent(p, Last(c), d[0])
    requires ReplaceAll(a, p, x) == a && ReplaceAll(b, p, x) == b
    requires ReplaceAll(c, p, x) == c && ReplaceAll(d, p, x) == d
    ensures ReplaceAll(a + b + c + d, p, x) == a + b + c + d
  {
    ReplaceConcat(a, b, p, x);
    ReplaceConcat(a + b, c, p, x);
    ReplaceConcat(a + b + c, d, p, x);
  }

  lemma BeforeUntouched(x: string)
    ensures ReplaceAll(BEFORE, PLACEHOLDER, x) == BEFORE
  {
    PlaceholderSeams();
    AbsentFirst(DATA, PLACEHOLDER, x);
    ShortUntouched(HEADER, PLACEHOLDER, x);
    ProtocolUntouched(x);
    AbsentFirst(PAYLOAD, PLACEHOLDER, x);
    FourPieces(DATA, HEADER, PROTOCOL, PAYLOAD, PLACEHOLDER, x);
  }

  lemma Patched(before: string, after: string, p: string, x: string)
    requires |p| >= 2 && before != [] && after != [] && |after| < |p|
    requires !Adjacent(p, Last(before), p[0]) && !Adjacent(p, Last(p), after[0])
    requires ReplaceAll(before, p, x) == before
    ensures ReplaceAll(before + p + after, p, x) == before + x + after
  {
    ShortUntouched(after, p, x);
    ReplacePattern(p, x);
    ReplaceWrapped(before, p, after, p, x);
  }

  /** `transformSpineDataIntoShipJson`: both models are transformed on their own
      and the payload is then patched over a placeholder. */
  function SpineIntoShip(payload: seq<Field>): string {
    ReplaceAll(Into(Envelope(Obj([Field("\"place\"", Scalar("\"holder\""))]))), PLACEHOLDER, Into(payload))
  }

  lemma EnvelopePlain(payload: Json)
    requires Plain(payload)
    ensures PlainFields(Envelope(payload))
  {
    var protocol := [Field(P, Scalar(V))];
    var inner := [Field(H, Obj(protocol)), Field(L, payload)];
    FieldsCons(protocol[0], []);
    assert protocol == [protocol[0]] + [];
    FieldsCons(inner[1], []);
    assert [inner[1]] == [inner[1]] + [];
    FieldsCons(inner[0], [inner[1]]);
    assert inner == [inner[0]] + [inner[1]];
    FieldsCons(Field(D, Obj(inner)), []);
    assert Envelope(payload) == [Field(D, Obj(inner))] + [];
  }

  /** The payload lands where the placeholder stood, and nowhere else. */
  lemma SpineIntoShipPrints(payload: seq<Field>)
    requires PlainFields(payload)
    ensures SpineIntoShip(payload) == Print(EEBUS, Bare(Envelope(Bare(payload))))
  {
    var holder := Obj([Field("\"place\"", Scalar("\"holder\""))]);
    assert holder.fields[1..] == [] && PlainFields(holder.fields[1..]);
    assert PrintFields(EEBUS, holder.fields) == "\"place\"" + ":" + "\"holder\"";
    assert Print(EEBUS, holder) == PLACEHOLDER;
    EnvelopePlain(holder);
    IntoPrints(Envelope(holder));
    IntoPrints(payload);
    EnvelopeInEebus(holder);
    EnvelopeInEebus(Bare(payload));
    PlaceholderSeams();
    BeforeUntouched(Into(payload));
    assert Last(BEFORE) == ':';
    Patched(BEFORE, AFTER, PLACEHOLDER, Into(payload));
  }

  /** What `shipModelFromMessage` extracts: the raw text of the payload member of a data
      message. A message of another form, or one without a payload, is refused. */
  function Unwrap(text: string): Option<string> {
    if |text| <= |PLAIN_BEFORE| + |PLAIN_AFTER| then None
    else if text[..|PLAIN_BEFORE|] != PLAIN_BEFORE || text[|text| - |PLAIN_AFTER|..] != PLAIN_AFTER then None
    else Some(text[|PLAIN_BEFORE|..|text| - |PLAIN_AFTER|])
  }

  lemma UnwrapIff(text: string, payload: string)
    requires payload != []
    ensures Unwrap(text) == Some(payload) <==> text == PLAIN_BEFORE + payload + PLAIN_AFTER
  {
    if Unwrap(text) == Some(payload) {
      assert text == text[..|PLAIN_BEFORE|] + text[|PLAIN_BEFORE|..|text| - |PLAIN_AFTER|] + text[|text| - |PLAIN_AFTER|..];
    }
  }

  // ------------------------------------------------------- an empty payload

  /** A colon is in no pattern, so the replacements work on both sides of it alone. */
  lemma ReplaceAroundColon(a: string, b: string, p: string, r: string)
    requires |p| >= 2 && ':' !in p
    ensures ReplaceAll(a + ":" + b, p, r) == ReplaceAll(a, p, r) + ":" + ReplaceAll(b, p, r)
  {
    assert forall x: char :: !Adjacent(p, x, ':') && !Adjacent(p, ':', x);
    ShortUntouched(":", p, r);
    ReplaceConcat(a, ":", p, r);
    ReplaceConcat(a + ":", b, p, r);
  }

  lemma UndoAroundColon(a: string, b: string)
    ensures Undo(a + ":" + b) == Undo(a) + ":" + Undo(b)
  {
    var a1, b1 := ReplaceAll(a, "[{", "{"), ReplaceAll(b, "[{", "{");
    var a2, b2 := ReplaceAll(a1, "},{", ","), ReplaceAll(b1, "},{", ",");
    var a3, b3 := ReplaceAll(a2, "}]", "}"), ReplaceAll(b2, "}]", "}");
    ReplaceAroundColon(a, b, "[{", "{");
    ReplaceAroundColon(a1, b1, "},{", ",");
    ReplaceAroundColon(a2, b2, "}]", "}");
    ReplaceAroundColon(a3, b3, "[]", "{}");
  }

  lemma UndoAfter()
    ensures Undo(AFTER) == "}}"
  {
    var t := "}]}";
    assert t[..2] == "}]" && t[1..] == "]}" && t[2..] == "}" && t[1..][1..] == "}";
    assert ReplaceAll(t, "[{", "{") == t by {
      ReplaceSkip(t, "[{", "{");
      ReplaceSkip("]}", "[{", "{");
      ShortUntouched("}", "[{", "{");
    }
    assert ReplaceAll(t, "},{", ",") == t by {
      ReplaceSkip(t, "},{", ",");
      ShortUntouched("]}", "},{", ",");
    }
    assert ReplaceAll(t, "}]", "}") == "}}" by {
      ReplaceMatch(t, "}]", "}");
      ShortUntouched("}", "}]", "}");
    }
    assert ReplaceAll("}}", "[]", "{}") == "}}" by {
      assert "}}"[1..] == "}";
      ReplaceSkip("}}", "[]", "{}");
      ShortUntouched("}", "[]", "{}");
    }
  }

  /** Trimming zero bytes leaves an end that has none. */
  lemma {:induction false} TrimKeepsEnd(a: string)
    ensures var t := Trim0(a + ":}}"); |t| >= 3 && t[|t| - 3] == ':'
    decreases |a|
  {
    var s := a + ":}}";
    assert s[|s| - 1] == '}' && s[|s| - 3] == ':';
    if s[0] == NUL {
      assert a != [] && s[1..] == a[1..] + ":}}";
      TrimKeepsEnd(a[1..]);
    }
  }

  lemma ColonAside(a: string, l: string, after: string)
    ensures (a + ("},{" + l + ":")) + "" + after == (a + ("},{" + l)) + ":" + after
  {
    assert "},{" + l + ":" == ("},{" + l) + ":";
  }

  lemma EndsDiffer(t: string, before: string)
    requires |t| >= 3 && t[|t| - 3] == ':'
    ensures t != before + "{}" + "}}"
  {
    var u := before + "{}" + "}}";
    assert u[|u| - 3] == '}';
  }

  lemma UndoneEmpty(head: string)
    ensures From(head + ":" + AFTER) != PLAIN_BEFORE + "{}" + PLAIN_AFTER
  {
    UndoAroundColon(head, AFTER);
    UndoAfter();
    var h := Undo(head);
    assert h + ":" + "}}" == h + ":}}";
    TrimKeepsEnd(h);
    EndsDiffer(From(head + ":" + AFTER), PLAIN_BEFORE);
  }

  /** The envelope of an empty payload has nothing behind its last colon. */
  lemma EmptyPayloadIsLost()
    ensures From(SpineIntoShip([])) != PLAIN_BEFORE + Print(STANDARD, Obj([])) + PLAIN_AFTER
  {
    SpineIntoShipPrints([]);
    EnvelopeInEebus(Bare([]));
    ColonAside(DATA + HEADER + PROTOCOL, L, AFTER);
    UndoneEmpty(DATA + HEADER + PROTOCOL + ("},{" + L));
  }

  /** A SPINE payload sent in a SHIP data message is extracted unchanged if and only if
      it is not empty, has no empty array and no pattern inside a token; and exactly
      then the whole message is restored. */
  lemma SpinePayloadSurvives(payload: seq<Field>)
    requires WellFormedFields(payload) && PlainFields(payload)
    ensures Unwrap(From(SpineIntoShip(payload))) == Some(Print(STANDARD, Obj(payload))) <==> payload != [] && CleanFields(payload)
    ensures payload != [] ==>
              (From(SpineIntoShip(payload)) == Print(STANDARD, Bare(Envelope(Bare(payload)))) <==> CleanFields(payload))
  {
    UnwrapIff(From(SpineIntoShip(payload)), Print(STANDARD, Obj(payload)));
    if payload == [] {
      EmptyPayloadIsLost();
    } else {
      SpineIntoShipPrints(payload);
      EnvelopeWellFormed(payload);
      EnvelopeUndone(Envelope(Bare(payload)));
      EnvelopeInStandard(Bare(payload));
      assert Print(STANDARD, Bare(payload)) == Print(STANDARD, Obj(payload));
    }
  }

  lemma EnvelopeUndone(message: seq<Field>)
    requires WellFormedFields(message) && message != []
    ensures From(Print(EEBUS, Bare(message))) == Print(STANDARD, Bare(message)) <==> CleanFields(message)
  {
    BareUndone(message);
  }

  /** A quoted word of letters, digits and dots. */
  lemma QuotedWord(w: string, t: string)
    requires t == "\"" + w + "\"" && forall c | c in w :: !Structural(c)
    ensures Token(t) && Free(t)
  {
    forall c | c in t ensures !Structural(c) {
      assert c in "\"" || c in w;
    }
    FreeWithoutStructure(t);
  }

  lemma DataTokens()
    ensures Token(D) && Free(D) && Token(H) && Free(H)
  {
    assert D == "\"" + "data" + "\"" && H == "\"" + "header" + "\"";
    QuotedWord("data", D);
    QuotedWord("header", H);
  }

  lemma ProtocolToken()
    ensures Token(P) && Free(P)
  {
    assert P == "\"" + "protocolId" + "\"";
    QuotedWord("protocolId", P);
  }

  lemma VersionToken()
    ensures Token(V) && Free(V)
  {
    assert V == "\"" + "ee1.0" + "\"";
    QuotedWord("ee1.0", V);
  }

  lemma PayloadTokens()
    ensures Token(L) && Free(L)
  {
    assert L == "\"" + "payload" + "\"";
    QuotedWord("payload", L);
  }

  lemma EnvelopeWellFormed(payload: seq<Field>)
    requires WellFormedFields(payload) && payload != []
    ensures WellFormedFields(Envelope(Bare(payload)))
    ensures CleanFields(Envelope(Bare(payload))) <==> CleanFields(payload)
  {
    DataTokens();
    ProtocolToken();
    VersionToken();
    PayloadTokens();
    WrappedWellFormed(D, H, P, V, L, payload);
  }

  lemma WrappedWellFormed(d: string, h: string, p: string, t: string, l: string, payload: seq<Field>)
    requires WellFormedFields(payload) && payload != []
    requires Token(d) && Token(h) && Token(p) && Token(t) && Token(l)
    requires Free(d) && Free(h) && Free(p) && Free(t) && Free(l)
    ensures var message := [Field(d, Obj([Field(h, Obj([Field(p, Scalar(t))])), Field(l, Bare(payload))]))];
            WellFormedFields(message) && (CleanFields(message) <==> CleanFields(payload))
  {
    var protocol := [Field(p, Scalar(t))];
    var inner := [Field(h, Obj(protocol)), Field(l, Bare(payload))];
    FieldsCons(protocol[0], []);
    assert protocol == [protocol[0]] + [];
    FieldsCons(inner[1], []);
    assert [inner[1]] == [inner[1]] + [];
    FieldsCons(inner[0], [inner[1]]);
    assert inner == [inner[0]] + [inner[1]];
    FieldsCons(Field(d, Obj(inner)), []);
    assert [Field(d, Obj(inner))] == [Field(d, Obj(inner))] + [];
  }
}

/**
 The EEBUS JSON dialect: every object is written as an array of one-field
 objects. `JsonIntoEEBUSJson` rewrites a tree; `JsonFromEEBUSJson` undoes it on
 the raw text with four textual replacements. This module determines exactly
 when the textual inverse is right.

 Scalars and keys are opaque tokens: the bytes `encoding/json` writes for them.
 */
module EebusJson {
  import opened TextReplacement

  // ------------------------------------------------------------ JSON trees

  /** `Bare` is an object whose enclosing EEBUS array brackets are stripped: the
      top level of a message, and a SPINE payload embedded in a SHIP message. */
  datatype Json = Obj(fields: seq<Field>) | Arr(items: seq<Json>) | Scalar(token: string) | Bare(fields: seq<Field>)
  datatype Field = Field(key: string, value: Json)

  predicate Structural(c: char) {
    c == '[' || c == ']' || c == '{' || c == '}' || c == ','
  }

  /** A scalar or key begins and ends with a character of its own: a quote, a
      digit, a sign or a letter. */
  predicate Token(t: string) {
    t != [] && !Structural(t[0]) && !Structural(t[|t| - 1])
  }

  predicate WellFormed(v: Json) {
    match v
    case Scalar(t) => Token(t)
    case Obj(fs) => WellFormedFields(fs)
    case Bare(fs) => fs != [] && WellFormedFields(fs)
    case Arr(items) => WellFormedItems(items)
  }

  predicate WellFormedFields(fs: seq<Field>) {
    fs == [] || (Token(fs[0].key) && WellFormed(fs[0].value) && WellFormedFields(fs[1..]))
  }

  predicate WellFormedItems(items: seq<Json>) {
    items == [] || (!items[0].Bare? && WellFormed(items[0]) && WellFormedItems(items[1..]))
  }

  /** How objects and empty containers are written. */
  datatype Style = Style(open: string, sep: string, close: string, emptyObj: string, emptyArr: string)

  function Print(st: Style, v: Json): string
    decreases v
  {
    match v
    case Scalar(t) => t
    case Obj(fs) => if fs == [] then st.emptyObj else st.open + PrintFields(st, fs) + st.close
    case Bare(fs) => if fs == [] then "" else "{" + PrintFields(st, fs) + "}"
    case Arr(items) => if items == [] then st.emptyArr else "[" + PrintItems(st, items) + "]"
  }

  function PrintFields(st: Style, fs: seq<Field>): string
    decreases fs
  {
    if fs == [] then ""
    else fs[0].key + ":" + Print(st, fs[0].value) + (if |fs| == 1 then "" else st.sep + PrintFields(st, fs[1..]))
  }

  function PrintItems(st: Style, items: seq<Json>): string
    decreases items
  {
    if items == [] then ""
    else Print(st, items[0]) + (if |items| == 1 then "" else "," + PrintItems(st, items[1..]))
  }

  const STANDARD := Style("{", ",", "}", "{}", "[]")
  const EEBUS := Style("[{", "},{", "}]", "[]", "[]")

  // ------------------------------------------------- the tree transformation

  /** `process_eebus_json_hierarchie_level`. */
  function Process(v: Json): Json
    decreases v
  {
    match v
    case Obj(fs) => Arr(ProcessFields(fs))
    case Arr(items) => Arr(ProcessItems(items))
    case _ => v
  }

  function ProcessFields(fs: seq<Field>): (r: seq<Json>)
    ensures |r| == |fs|
    decreases fs
  {
    if fs == [] then [] else [Obj([Field(fs[0].key, Process(fs[0].value))])] + ProcessFields(fs[1..])
  }

  function ProcessItems(items: seq<Json>): (r: seq<Json>)
    ensures |r| == |items|
    decreases items
  {
    if items == [] then [] else [Process(items[0])] + ProcessItems(items[1..])
  }

  /** The recursion as written: each level appends to a fresh array in a loop. */
  method ProcessLevel(v: Json) returns (r: Json)
    ensures r == Process(v)
    decreases v
  {
    match v
    case Obj(fs) =>
      var newArray := [];
      for i := 0 to |fs|
        invariant newArray + ProcessFields(fs[i..]) == ProcessFields(fs)
      {
        var newValue := ProcessLevel(fs[i].value);
        newArray := newArray + [Obj([Field(fs[i].key, newValue)])];
      }
      return Arr(newArray);
    case Arr(items) =>
      var newArray := [];
      for i := 0 to |items|
        invariant newArray + ProcessItems(items[i..]) == ProcessItems(items)
      {
        var newValue := ProcessLevel(items[i]);
        newArray := newArray + [newValue];
      }
      return Arr(newArray);
    case _ =>
      return v;
  }

  predicate Plain(v: Json) {
    match v
    case Scalar(_) => true
    case Obj(fs) => PlainFields(fs)
    case Arr(items) => PlainItems(items)
    case Bare(_) => false
  }

  predicate PlainFields(fs: seq<Field>) {
    fs == [] || (Plain(fs[0].value) && PlainFields(fs[1..]))
  }

  predicate PlainItems(items: seq<Json>) {
    items == [] || (Plain(items[0]) && PlainItems(items[1..]))
  }

  /** Printing the rewritten tree in the standard way is printing the original
      tree in the EEBUS style. */
  lemma {:induction false} ProcessPrints(v: Json)
    requires Plain(v)
    ensures Print(STANDARD, Process(v)) == Print(EEBUS, v)
    decreases v
  {
    match v
    case Scalar(_) =>
    case Arr(items) => ProcessItemsPrints(items);
    case Obj(fs) =>
      if fs != [] {
        ProcessFieldsPrints(fs);
      }
  }

  lemma {:induction false} ProcessItemsPrints(items: seq<Json>)
    requires PlainItems(items)
    ensures PrintItems(STANDARD, ProcessItems(items)) == PrintItems(EEBUS, items)
    decreases items
  {
    if items != [] {
      ProcessPrints(items[0]);
      ProcessItemsPrints(items[1..]);
      assert ProcessItems(items)[1..] == ProcessItems(items[1..]);
    }
  }

  lemma {:induction false} ProcessFieldsPrints(fs: seq<Field>)
    requires PlainFields(fs) && fs != []
    ensures PrintItems(STANDARD, ProcessFields(fs)) == "{" + PrintFields(EEBUS, fs) + "}"
    decreases fs
  {
    var one := Field(fs[0].key, Process(fs[0].value));
    var items := ProcessFields(fs);
    ProcessPrints(fs[0].value);
    assert PrintFields(STANDARD, [one]) == fs[0].key + ":" + Print(EEBUS, fs[0].value);
    assert Print(STANDARD, items[0]) == "{" + (fs[0].key + ":" + Print(EEBUS, fs[0].value)) + "}";
    assert items[1..] == ProcessFields(fs[1..]);
    if |fs| > 1 {
      ProcessFieldsPrints(fs[1..]);
      var rest := PrintFields(EEBUS, fs[1..]);
      assert "{" + (fs[0].key + ":" + Print(EEBUS, fs[0].value)) + "}" + ("," + ("{" + rest + "}"))
          == "{" + (fs[0].key + ":" + Print(EEBUS, fs[0].value) + ("},{" + rest)) + "}";
    }
  }

  function TrimPrefix(s: string, c: char): string {
    if s != [] && s[0] == c then s[1..] else s
  }

  function TrimSuffix(s: string, c: char): string {
    if s != [] && s[|s| - 1] == c then s[..|s| - 1] else s
  }

  /** `JsonIntoEEBUSJson` on a parsed top-level object. */
  function Into(fs: seq<Field>): string {
    TrimSuffix(TrimPrefix(Print(STANDARD, Process(Obj(fs))), '['), ']')
  }

  lemma IntoPrints(fs: seq<Field>)
    requires PlainFields(fs)
    ensures Into(fs) == Print(EEBUS, Bare(fs))
  {
    ProcessPrints(Obj(fs));
    if fs != [] {
      var body := PrintFields(EEBUS, fs);
      assert Print(EEBUS, Obj(fs)) == "[{" + body + "}]";
      assert TrimPrefix("[{" + body + "}]", '[') == "{" + body + "}]";
      assert TrimSuffix("{" + body + "}]", ']') == "{" + body + "}";
    }
  }

  // ----------------------------------------------------- the four replacements

  const NUL := '\0'

  function Trim0(s: string): string {
    if s != [] && s[0] == NUL then Trim0(s[1..])
    else if s != [] && s[|s| - 1] == NUL then Trim0(s[..|s| - 1])
    else s
  }

  /** `JsonFromEEBUSJson`. */
  function From(text: string): string {
    Trim0(Undo(text))
  }

  function Undo(text: string): string {
    ReplaceAll(ReplaceAll(ReplaceAll(ReplaceAll(text, "[{", "{"), "},{", ","), "}]", "}"), "[]", "{}")
  }

  const STAGE1 := Style("{", "},{", "}]", "[]", "[]")
  const STAGE2 := Style("{", ",", "}]", "[]", "[]")
  const STAGE3 := Style("{", ",", "}", "[]", "[]")
  const STAGE4 := Style("{", ",", "}", "{}", "{}")

  function MapTokens(v: Json, p: string, r: string): Json
    requires |p| >= 2
    decreases v
  {
    match v
    case Scalar(t) => Scalar(ReplaceAll(t, p, r))
    case Obj(fs) => Obj(MapFields(fs, p, r))
    case Bare(fs) => Bare(MapFields(fs, p, r))
    case Arr(items) => Arr(MapItems(items, p, r))
  }

  function MapFields(fs: seq<Field>, p: string, r: string): (m: seq<Field>)
    requires |p| >= 2
    ensures |m| == |fs|
    decreases fs
  {
    if fs == [] then []
    else [Field(ReplaceAll(fs[0].key, p, r), MapTokens(fs[0].value, p, r))] + MapFields(fs[1..], p, r)
  }

  function MapItems(items: seq<Json>, p: string, r: string): (m: seq<Json>)
    requires |p| >= 2
    ensures |m| == |items|
    decreases items
  {
    if items == [] then [] else [MapTokens(items[0], p, r)] + MapItems(items[1..], p, r)
  }

  function Last(s: string): char
    requires s != []
  {
    s[|s| - 1]
  }

  /** What one replacement needs of the style it reads: it rewrites the style's
      own separators as intended and matches across no seam between pieces. */
  ghost predicate Admissible(p: string, r: string, st: Style, st': Style) {
    && |p| >= 2
    && (forall c | c in p :: Structural(c))
    && p[0] != ',' && p[0] != '{'
    && st.open != [] && st.sep != [] && st.close != [] && st.emptyObj != [] && st.emptyArr != []
    && ReplaceAll(st.open, p, r) == st'.open
    && ReplaceAll(st.sep, p, r) == st'.sep
    && ReplaceAll(st.close, p, r) == st'.close
    && ReplaceAll(st.emptyObj, p, r) == st'.emptyObj
    && ReplaceAll(st.emptyArr, p, r) == st'.emptyArr
    && st.close[0] == '}'
    && (forall c | c in {'[', st.open[0], st.emptyObj[0], st.emptyArr[0]} :: Structural(c) && !Adjacent(p, '[', c))
    && (forall c | c in {']', Last(st.close), Last(st.emptyObj), Last(st.emptyArr)} ::
          && Structural(c)
          && !Adjacent(p, c, ']') && !Adjacent(p, c, ',') && !Adjacent(p, c, st.sep[0]) && !Adjacent(p, c, '}'))
    && !Adjacent(p, '}', st.sep[0]) && !Adjacent(p, '}', '}')
  }

  lemma {:induction false} TokenKept(t: string, p: string, r: string)
    requires |p| >= 2 && (forall c | c in p :: Structural(c)) && Token(t)
    ensures var u := ReplaceAll(t, p, r); Token(u) && u[0] == t[0] && Last(u) == Last(t)
  {
    if |t| >= 2 {
      var mid := t[1..|t| - 1];
      assert t == [t[0]] + (mid + [Last(t)]);
      ReplaceAfter(t[0], mid + [Last(t)], p, r);
      ReplaceConcat(mid, [Last(t)], p, r);
      assert ReplaceAll([Last(t)], p, r) == [Last(t)];
      assert ReplaceAll(t, p, r) == [t[0]] + (ReplaceAll(mid, p, r) + [Last(t)]);
    }
  }

  ghost predicate StartOf(st: Style, c: char)
    requires st.open != [] && st.emptyObj != [] && st.emptyArr != []
  {
    !Structural(c) || c in {'[', st.open[0], st.emptyObj[0], st.emptyArr[0]}
  }

  ghost predicate EndOf(st: Style, c: char)
    requires st.close != [] && st.emptyObj != [] && st.emptyArr != []
  {
    !Structural(c) || c in {']', Last(st.close), Last(st.emptyObj), Last(st.emptyArr)}
  }

  /** The first and last characters a printed value can have. */
  lemma PrintEnds(st: Style, v: Json)
    requires WellFormed(v)
    requires st.open != [] && st.close != [] && st.emptyObj != [] && st.emptyArr != []
    ensures var s := Print(st, v);
            && s != []
            && (if v.Bare? then s[0] == '{' && Last(s) == '}' else StartOf(st, s[0]) && EndOf(st, Last(s)))
  {
  }

  lemma {:induction false} FieldsEnds(st: Style, fs: seq<Field>)
    requires WellFormedFields(fs) && fs != []
    requires st.open != [] && st.sep != [] && st.close != [] && st.emptyObj != [] && st.emptyArr != []
    ensures var s := PrintFields(st, fs);
            && s != [] && !Structural(s[0])
            && (EndOf(st, Last(s)) || Last(s) == '}')
    decreases fs
  {
    PrintEnds(st, fs[0].value);
    if |fs| > 1 {
      FieldsEnds(st, fs[1..]);
    }
  }

  lemma {:induction false} ItemsEnds(st: Style, items: seq<Json>)
    requires WellFormedItems(items) && items != []
    requires st.open != [] && st.close != [] && st.emptyObj != [] && st.emptyArr != []
    ensures var s := PrintItems(st, items); s != [] && StartOf(st, s[0]) && EndOf(st, Last(s))
    decreases items
  {
    PrintEnds(st, items[0]);
    if |items| > 1 {
      ItemsEnds(st, items[1..]);
    }
  }

  lemma NoStructuralSeam(p: string, x: char, y: char)
    requires forall c | c in p :: Structural(c)
    ensures !Structural(x) || !Structural(y) ==> !Adjacent(p, x, y)
  {
  }

  lemma SeamAfterValue(p: string, r: string, st: Style, st': Style, x: char, y: char)
    requires Admissible(p, r, st, st') && (EndOf(st, x) || (x == '}' && (y == '}' || y == st.sep[0])))
    requires y == '}' || y == st.sep[0] || y == ']' || y == ','
    ensures !Adjacent(p, x, y)
  {
    NoStructuralSeam(p, x, y);
  }

  lemma SeamAfterBracket(p: string, r: string, st: Style, st': Style, y: char)
    requires Admissible(p, r, st, st') && StartOf(st, y)
    ensures !Adjacent(p, '[', y)
  {
    NoStructuralSeam(p, '[', y);
  }

  /** One replacement, run over the text of a whole tree, restyles the tree and
      otherwise touches nothing but the insides of tokens. */
  lemma {:induction false} Restyle(v: Json, p: string, r: string, st: Style, st': Style)
    requires WellFormed(v) && Admissible(p, r, st, st')
    ensures ReplaceAll(Print(st, v), p, r) == Print(st', MapTokens(v, p, r))
    decreases v, 1
  {
    match v
    case Scalar(_) =>
    case Obj(fs) => if fs != [] { RestyleObject(v, p, r, st, st'); }
    case Bare(fs) => RestyleObject(v, p, r, st, st');
    case Arr(items) => if items != [] { RestyleArray(v, p, r, st, st'); }
  }

  lemma {:induction false} RestyleObject(v: Json, p: string, r: string, st: Style, st': Style)
    requires (v.Obj? || v.Bare?) && v.fields != [] && WellFormed(v) && Admissible(p, r, st, st')
    ensures ReplaceAll(Print(st, v), p, r) == Print(st', MapTokens(v, p, r))
    decreases v, 0
  {
    var body := PrintFields(st, v.fields);
    FieldsEnds(st, v.fields);
    RestyleFields(v.fields, p, r, st, st');
    SeamAfterValue(p, r, st, st', Last(body), '}');
    if v.Obj? {
      NoStructuralSeam(p, Last(st.open), body[0]);
      ReplaceWrapped(st.open, body, st.close, p, r);
    } else {
      NoStructuralSeam(p, '{', body[0]);
      ReplaceWrapped("{", body, "}", p, r);
      ShortUntouched("{", p, r);
      ShortUntouched("}", p, r);
    }
  }

  lemma {:induction false} RestyleArray(v: Json, p: string, r: string, st: Style, st': Style)
    requires v.Arr? && v.items != [] && WellFormed(v) && Admissible(p, r, st, st')
    ensures ReplaceAll(Print(st, v), p, r) == Print(st', MapTokens(v, p, r))
    decreases v, 0
  {
    var body := PrintItems(st, v.items);
    ItemsEnds(st, v.items);
    RestyleItems(v.items, p, r, st, st');
    SeamAfterBracket(p, r, st, st', body[0]);
    SeamAfterValue(p, r, st, st', Last(body), ']');
    ReplaceWrapped("[", body, "]", p, r);
    ShortUntouched("[", p, r);
    ShortUntouched("]", p, r);
  }

  lemma {:induction false} RestyleField(f: Field, p: string, r: string, st: Style, st': Style)
    requires Token(f.key) && WellFormed(f.value) && Admissible(p, r, st, st')
    ensures ReplaceAll(f.key + ":" + Print(st, f.value), p, r)
         == ReplaceAll(f.key, p, r) + ":" + Print(st', MapTokens(f.value, p, r))
    decreases f, 2
  {
    var value := Print(st, f.value);
    PrintEnds(st, f.value);
    Restyle(f.value, p, r, st, st');
    NoStructuralSeam(p, Last(f.key), ':');
    NoStructuralSeam(p, ':', value[0]);
    ReplaceConcat(f.key, ":", p, r);
    ReplaceConcat(f.key + ":", value, p, r);
    ShortUntouched(":", p, r);
  }

  lemma {:induction false} RestyleFields(fs: seq<Field>, p: string, r: string, st: Style, st': Style)
    requires WellFormedFields(fs) && Admissible(p, r, st, st')
    ensures ReplaceAll(PrintFields(st, fs), p, r) == PrintFields(st', MapFields(fs, p, r))
    decreases fs
  {
    if fs != [] {
      var head := fs[0].key + ":" + Print(st, fs[0].value);
      var head' := ReplaceAll(fs[0].key, p, r) + ":" + Print(st', MapTokens(fs[0].value, p, r));
      RestyleField(fs[0], p, r, st, st');
      assert MapFields(fs, p, r)[1..] == MapFields(fs[1..], p, r);
      if |fs| > 1 {
        var rest := PrintFields(st, fs[1..]);
        RestyleFields(fs[1..], p, r, st, st');
        FieldSeams(fs, p, r, st, st');
        ReplaceConcat(st.sep, rest, p, r);
        ReplaceConcat(head, st.sep + rest, p, r);
        assert PrintFields(st, fs) == head + (st.sep + rest);
        assert PrintFields(st', MapFields(fs, p, r))
            == head' + (st'.sep + PrintFields(st', MapFields(fs[1..], p, r)));
      } else {
        assert PrintFields(st, fs) == head;
        assert PrintFields(st', MapFields(fs, p, r)) == head';
      }
    }
  }

  lemma FieldSeams(fs: seq<Field>, p: string, r: string, st: Style, st': Style)
    requires |fs| > 1 && WellFormedFields(fs) && Admissible(p, r, st, st')
    ensures var value, rest := Print(st, fs[0].value), PrintFields(st, fs[1..]);
            && value != [] && rest != []
            && !Adjacent(p, Last(value), st.sep[0]) && !Adjacent(p, Last(st.sep), rest[0])
  {
    PrintEnds(st, fs[0].value);
    FieldsEnds(st, fs[1..]);
    NoStructuralSeam(p, Last(st.sep), PrintFields(st, fs[1..])[0]);
    SeamAfterValue(p, r, st, st', Last(Print(st, fs[0].value)), st.sep[0]);
  }

  lemma {:induction false} RestyleItems(items: seq<Json>, p: string, r: string, st: Style, st': Style)
    requires WellFormedItems(items) && Admissible(p, r, st, st')
    ensures ReplaceAll(PrintItems(st, items), p, r) == PrintItems(st', MapItems(items, p, r))
    decreases items
  {
    if items != [] {
      var head := Print(st, items[0]);
      PrintEnds(st, items[0]);
      Restyle(items[0], p, r, st, st');
      assert MapItems(items, p, r)[1..] == MapItems(items[1..], p, r);
      if |items| > 1 {
        var rest := PrintItems(st, items[1..]);
        RestyleItems(items[1..], p, r, st, st');
        ReplaceAfter(',', rest, p, r);
        SeamAfterValue(p, r, st, st', Last(head), ',');
        ReplaceConcat(head, "," + rest, p, r);
      } else {
        assert PrintItems(st, items) == head;
      }
    }
  }

  lemma {:induction false} MapWellFormed(v: Json, p: string, r: string)
    requires WellFormed(v) && |p| >= 2 && forall c | c in p :: Structural(c)
    ensures WellFormed(MapTokens(v, p, r))
    decreases v
  {
    match v
    case Scalar(t) => TokenKept(t, p, r);
    case Obj(fs) => MapFieldsWellFormed(fs, p, r);
    case Bare(fs) => MapFieldsWellFormed(fs, p, r);
    case Arr(items) => MapItemsWellFormed(items, p, r);
  }

  lemma {:induction false} MapFieldsWellFormed(fs: seq<Field>, p: string, r: string)
    requires WellFormedFields(fs) && |p| >= 2 && forall c | c in p :: Structural(c)
    ensures WellFormedFields(MapFields(fs, p, r))
    decreases fs
  {
    if fs != [] {
      TokenKept(fs[0].key, p, r);
      MapWellFormed(fs[0].value, p, r);
      MapFieldsWellFormed(fs[1..], p, r);
      assert MapFields(fs, p, r)[1..] == MapFields(fs[1..], p, r);
    }
  }

  lemma {:induction false} MapItemsWellFormed(items: seq<Json>, p: string, r: string)
    requires WellFormedItems(items) && |p| >= 2 && forall c | c in p :: Structural(c)
    ensures WellFormedItems(MapItems(items, p, r))
    decreases items
  {
    if items != [] {
      MapWellFormed(items[0], p, r);
      MapItemsWellFormed(items[1..], p, r);
      assert MapItems(items, p, r)[1..] == MapItems(items[1..], p, r);
    }
  }

  lemma FirstStage()
    ensures Admissible("[{", "{", EEBUS, STAGE1)
  {
    ReplacePattern("[{", "{");
    assert "},{" == ['}'] + ([','] + "{") && "}]" == ['}'] + "]";
    ReplaceAfter(',', "{", "[{", "{");
    ReplaceAfter('}', [','] + "{", "[{", "{");
    ReplaceAfter('}', "]", "[{", "{");
    OtherPair("[]", "[{", "{");
  }

  lemma SecondStage()
    ensures Admissible("},{", ",", STAGE1, STAGE2)
  {
    ReplacePattern("},{", ",");
  }

  lemma ThirdStage()
    ensures Admissible("}]", "}", STAGE2, STAGE3)
  {
    ReplacePattern("}]", "}");
    OtherPair("[]", "}]", "}");
  }

  lemma FourthStage()
    ensures Admissible("[]", "{}", STAGE3, STAGE4)
  {
    ReplacePattern("[]", "{}");
  }

  function ScrubToken(t: string): string {
    Undo(t)
  }

  /** A tree whose tokens have been through all four replacements. */
  function Scrub(v: Json): Json
    decreases v
  {
    match v
    case Scalar(t) => Scalar(ScrubToken(t))
    case Obj(fs) => Obj(ScrubFields(fs))
    case Bare(fs) => Bare(ScrubFields(fs))
    case Arr(items) => Arr(ScrubItems(items))
  }

  function ScrubFields(fs: seq<Field>): (m: seq<Field>)
    ensures |m| == |fs|
    decreases fs
  {
    if fs == [] then [] else [Field(ScrubToken(fs[0].key), Scrub(fs[0].value))] + ScrubFields(fs[1..])
  }

  function ScrubItems(items: seq<Json>): (m: seq<Json>)
    ensures |m| == |items|
    decreases items
  {
    if items == [] then [] else [Scrub(items[0])] + ScrubItems(items[1..])
  }

  lemma {:induction false} ScrubIsFourMaps(v: Json)
    ensures MapTokens(MapTokens(MapTokens(MapTokens(v, "[{", "{"), "},{", ","), "}]", "}"), "[]", "{}") == Scrub(v)
    decreases v
  {
    match v
    case Scalar(_) =>
    case Obj(fs) => ScrubFieldsIsFourMaps(fs);
    case Bare(fs) => ScrubFieldsIsFourMaps(fs);
    case Arr(items) => ScrubItemsIsFourMaps(items);
  }

  lemma {:induction false} ScrubFieldsIsFourMaps(fs: seq<Field>)
    ensures MapFields(MapFields(MapFields(MapFields(fs, "[{", "{"), "},{", ","), "}]", "}"), "[]", "{}") == ScrubFields(fs)
    decreases fs
  {
    if fs != [] {
      ScrubIsFourMaps(fs[0].value);
      ScrubFieldsIsFourMaps(fs[1..]);
      var m1 := MapFields(fs, "[{", "{");
      var m2 := MapFields(m1, "},{", ",");
      var m3 := MapFields(m2, "}]", "}");
      assert m1[1..] == MapFields(fs[1..], "[{", "{");
      assert m2[1..] == MapFields(m1[1..], "},{", ",");
      assert m3[1..] == MapFields(m2[1..], "}]", "}");
    }
  }

  lemma {:induction false} ScrubItemsIsFourMaps(items: seq<Json>)
    ensures MapItems(MapItems(MapItems(MapItems(items, "[{", "{"), "},{", ","), "}]", "}"), "[]", "{}") == ScrubItems(items)
    decreases items
  {
    if items != [] {
      ScrubIsFourMaps(items[0]);
      ScrubItemsIsFourMaps(items[1..]);
      var m1 := MapItems(items, "[{", "{");
      var m2 := MapItems(m1, "},{", ",");
      var m3 := MapItems(m2, "}]", "}");
      assert m1[1..] == MapItems(items[1..], "[{", "{");
      assert m2[1..] == MapItems(m1[1..], "},{", ",");
      assert m3[1..] == MapItems(m2[1..], "}]", "}");
    }
  }

  /** The four replacements together turn EEBUS text into standard text, except
      that empty arrays become empty objects and tokens may be damaged. */
  lemma UndoPrints(v: Json)
    requires WellFormed(v)
    ensures Undo(Print(EEBUS, v)) == Print(STAGE4, Scrub(v))
  {
    FirstStage();
    SecondStage();
    ThirdStage();
    FourthStage();
    var v1 := MapTokens(v, "[{", "{");
    var v2 := MapTokens(v1, "},{", ",");
    var v3 := MapTokens(v2, "}]", "}");
    Restyle(v, "[{", "{", EEBUS, STAGE1);
    MapWellFormed(v, "[{", "{");
    Restyle(v1, "},{", ",", STAGE1, STAGE2);
    MapWellFormed(v1, "},{", ",");
    Restyle(v2, "}]", "}", STAGE2, STAGE3);
    MapWellFormed(v2, "}]", "}");
    Restyle(v3, "[]", "{}", STAGE3, STAGE4);
    ScrubIsFourMaps(v);
  }

  // ---------------------------------------------- exactly when nothing is lost

  predicate Free(t: string) {
    !Contains(t, "[{") && !Contains(t, "},{") && !Contains(t, "}]") && !Contains(t, "[]")
  }

  /** No empty array anywhere, and no key or string holding one of the four
      patterns. */
  predicate Clean(v: Json) {
    match v
    case Scalar(t) => Free(t)
    case Obj(fs) => CleanFields(fs)
    case Bare(fs) => CleanFields(fs)
    case Arr(items) => items != [] && CleanItems(items)
  }

  predicate CleanFields(fs: seq<Field>) {
    fs == [] || (Free(fs[0].key) && Clean(fs[0].value) && CleanFields(fs[1..]))
  }

  predicate CleanItems(items: seq<Json>) {
    items == [] || (Clean(items[0]) && CleanItems(items[1..]))
  }

  lemma PatternWeights()
    ensures Weight("[{") == 2 && Weight("{") == 1
    ensures Weight("},{") == 1 && Weight(",") == 0
    ensures Weight("}]") == 1 && Weight("}") == 0
    ensures Weight("[]") == 2 && Weight("{}") == 1
  {
    WeightConcat("[", "{");
    WeightConcat("}", ",");
    WeightConcat("},", "{");
    WeightConcat("}", "]");
    WeightConcat("[", "]");
    WeightConcat("{", "}");
    assert "[{" == "[" + "{" && "}," == "}" + "," && "},{" == "}," + "{";
    assert "}]" == "}" + "]" && "[]" == "[" + "]" && "{}" == "{" + "}";
  }

  lemma TokenLightens(t: string)
    ensures Weight(ScrubToken(t)) <= Weight(t)
    ensures Weight(ScrubToken(t)) == Weight(t) <==> Free(t)
    ensures Free(t) ==> ScrubToken(t) == t
  {
    PatternWeights();
    var t1 := ReplaceAll(t, "[{", "{");
    var t2 := ReplaceAll(t1, "},{", ",");
    var t3 := ReplaceAll(t2, "}]", "}");
    ReplaceLightens(t, "[{", "{");
    ReplaceLightens(t1, "},{", ",");
    ReplaceLightens(t2, "}]", "}");
    ReplaceLightens(t3, "[]", "{}");
    if !Contains(t, "[{") {
      ReplaceUntouched(t, "[{", "{");
      if !Contains(t, "},{") {
        ReplaceUntouched(t, "},{", ",");
        if !Contains(t, "}]") {
          ReplaceUntouched(t, "}]", "}");
          if !Contains(t, "[]") {
            ReplaceUntouched(t, "[]", "{}");
          }
        }
      }
    }
  }

  /** The undone text of a tree weighs at most what its standard text weighs, and
      exactly as much only when the tree is clean. */
  lemma {:induction false} TreeLightens(v: Json)
    ensures var now, then_ := Weight(Print(STAGE4, Scrub(v))), Weight(Print(STANDARD, v));
            now <= then_ && (now == then_ ==> Clean(v))
    decreases v
  {
    match v
    case Scalar(t) => TokenLightens(t);
    case Obj(fs) =>
      FieldsLighten(fs);
      var (body, body') := (PrintFields(STANDARD, fs), PrintFields(STAGE4, ScrubFields(fs)));
      WeightWrapped("{", body, "}");
      WeightWrapped("{", body', "}");
    case Bare(fs) =>
      FieldsLighten(fs);
      var (body, body') := (PrintFields(STANDARD, fs), PrintFields(STAGE4, ScrubFields(fs)));
      WeightWrapped("{", body, "}");
      WeightWrapped("{", body', "}");
    case Arr(items) =>
      ItemsLighten(items);
      PatternWeights();
      var (body, body') := (PrintItems(STANDARD, items), PrintItems(STAGE4, ScrubItems(items)));
      WeightWrapped("[", body, "]");
      WeightWrapped("[", body', "]");
  }

  lemma {:induction false} FieldsLighten(fs: seq<Field>)
    ensures var now, then_ := Weight(PrintFields(STAGE4, ScrubFields(fs))), Weight(PrintFields(STANDARD, fs));
            now <= then_ && (now == then_ ==> CleanFields(fs))
    decreases fs
  {
    if fs != [] {
      var m := ScrubFields(fs);
      assert m[1..] == ScrubFields(fs[1..]);
      TokenLightens(fs[0].key);
      TreeLightens(fs[0].value);
      FieldsLighten(fs[1..]);
      FieldsWeight(STANDARD, fs);
      FieldsWeight(STAGE4, m);
    }
  }

  lemma FieldsWeight(st: Style, fs: seq<Field>)
    requires fs != [] && st.sep == ","
    ensures Weight(PrintFields(st, fs))
         == Weight(fs[0].key) + Weight(Print(st, fs[0].value)) + Weight(PrintFields(st, fs[1..]))
  {
    var value := Print(st, fs[0].value);
    WeightWrapped(fs[0].key, ":", value);
    if |fs| > 1 {
      WeightConcat(",", PrintFields(st, fs[1..]));
      WeightConcat(fs[0].key + ":" + value, "," + PrintFields(st, fs[1..]));
    } else {
      assert PrintFields(st, fs) == fs[0].key + ":" + value;
    }
  }

  lemma {:induction false} ItemsLighten(items: seq<Json>)
    ensures var now, then_ := Weight(PrintItems(STAGE4, ScrubItems(items))), Weight(PrintItems(STANDARD, items));
            now <= then_ && (now == then_ ==> CleanItems(items))
    decreases items
  {
    if items != [] {
      var m := ScrubItems(items);
      assert m[1..] == ScrubItems(items[1..]);
      TreeLightens(items[0]);
      ItemsLighten(items[1..]);
      ItemsWeight(STANDARD, items);
      ItemsWeight(STAGE4, m);
    }
  }

  lemma ItemsWeight(st: Style, items: seq<Json>)
    requires items != []
    ensures Weight(PrintItems(st, items)) == Weight(Print(st, items[0])) + Weight(PrintItems(st, items[1..]))
  {
    if |items| > 1 {
      WeightConcat(",", PrintItems(st, items[1..]));
      WeightConcat(Print(st, items[0]), "," + PrintItems(st, items[1..]));
    } else {
      assert PrintItems(st, items) == Print(st, items[0]);
    }
  }

  lemma {:induction false} CleanPrints(v: Json)
    requires Clean(v)
    ensures Print(STAGE4, Scrub(v)) == Print(STANDARD, v)
    decreases v
  {
    match v
    case Scalar(t) => TokenLightens(t);
    case Obj(fs) => CleanFieldsPrint(fs);
    case Bare(fs) => CleanFieldsPrint(fs);
    case Arr(items) => CleanItemsPrint(items);
  }

  lemma {:induction false} CleanFieldsPrint(fs: seq<Field>)
    requires CleanFields(fs)
    ensures PrintFields(STAGE4, ScrubFields(fs)) == PrintFields(STANDARD, fs)
    decreases fs
  {
    if fs != [] {
      assert ScrubFields(fs)[1..] == ScrubFields(fs[1..]);
      TokenLightens(fs[0].key);
      CleanPrints(fs[0].value);
      CleanFieldsPrint(fs[1..]);
    }
  }

  lemma {:induction false} CleanItemsPrint(items: seq<Json>)
    requires CleanItems(items)
    ensures PrintItems(STAGE4, ScrubItems(items)) == PrintItems(STANDARD, items)
    decreases items
  {
    if items != [] {
      assert ScrubItems(items)[1..] == ScrubItems(items[1..]);
      CleanPrints(items[0]);
      CleanItemsPrint(items[1..]);
    }
  }

  lemma BareUndone(fs: seq<Field>)
    requires WellFormedFields(fs) && fs != []
    ensures Undo(Print(EEBUS, Bare(fs))) == Print(STANDARD, Bare(fs)) <==> CleanFields(fs)
    ensures var s := Undo(Print(EEBUS, Bare(fs))); s != [] && s[0] == '{' && Last(s) == '}'
  {
    UndoPrints(Bare(fs));
    TreeLightens(Bare(fs));
    if CleanFields(fs) { CleanPrints(Bare(fs)); }
  }

  /** The textual inverse undoes the tree transformation exactly for
      non-empty top-level objects without empty arrays whose keys and strings hold
      none of the four patterns. */
  lemma RoundTrip(fs: seq<Field>)
    requires WellFormedFields(fs) && PlainFields(fs)
    ensures From(Into(fs)) == Print(STANDARD, Obj(fs)) <==> fs != [] && CleanFields(fs)
  {
    IntoPrints(fs);
    if fs == [] {
      ShortUntouched("", "[{", "{");
      ShortUntouched("", "},{", ",");
      ShortUntouched("", "}]", "}");
      ShortUntouched("", "[]", "{}");
    } else {
      BareUndone(fs);
    }
  }

  lemma EmptyArrayIsLost()
    ensures From(Into([Field("\"a\"", Arr([]))])) != Print(STANDARD, Obj([Field("\"a\"", Arr([]))]))
  {
    RoundTrip([Field("\"a\"", Arr([]))]);
  }

  // --------------------------------------------------------- trailing zeros

  function Zeros(n: nat): string {
    if n == 0 then "" else [NUL] + Zeros(n - 1)
  }

  lemma {:induction false} ZerosShape(n: nat)
    ensures |Zeros(n)| == n && forall i | 0 <= i < n :: Zeros(n)[i] == NUL
  {
    if n > 0 { ZerosShape(n - 1); }
  }

  lemma {:induction false} ReplaceKeepsZeros(s: string, n: nat, p: string, r: string)
    requires |p| >= 2 && forall c | c in p :: Structural(c)
    ensures ReplaceAll(s + Zeros(n), p, r) == ReplaceAll(s, p, r) + Zeros(n)
    decreases n
  {
    assert p[0] in p;
    ZerosShape(n);
    if n == 0 {
      assert s + Zeros(n) == s;
    } else {
      ReplaceKeepsZeros("", n - 1, p, r);
      assert "" + Zeros(n - 1) == Zeros(n - 1);
      ReplaceAfter(NUL, Zeros(n - 1), p, r);
      if s != [] { NoStructuralSeam(p, Last(s), NUL); }
      ReplaceConcat(s, Zeros(n), p, r);
    }
  }

  lemma {:induction false} TrimZeros(s: string, n: nat)
    requires s != [] && s[0] != NUL && Last(s) != NUL
    ensures Trim0(s + Zeros(n)) == s
  {
    ZerosShape(n);
    if n == 0 {
      assert s + Zeros(n) == s;
    } else {
      var t := s + Zeros(n);
      ZerosShape(n - 1);
      assert Last(t) == NUL && t[0] == s[0];
      assert t[..|t| - 1] == s + Zeros(n - 1);
      TrimZeros(s, n - 1);
    }
  }

  /** Any number of stray zero bytes after a message changes nothing. */
  lemma TrailingZerosIgnored(fs: seq<Field>, n: nat)
    requires WellFormedFields(fs) && PlainFields(fs) && fs != []
    ensures From(Into(fs) + Zeros(n)) == From(Into(fs))
  {
    IntoPrints(fs);
    BareUndone(fs);
    var s := Into(fs);
    var s1 := ReplaceAll(s, "[{", "{");
    var s2 := ReplaceAll(s1, "},{", ",");
    var s3 := ReplaceAll(s2, "}]", "}");
    ReplaceKeepsZeros(s, n, "[{", "{");
    ReplaceKeepsZeros(s1, n, "},{", ",");
    ReplaceKeepsZeros(s2, n, "}]", "}");
    ReplaceKeepsZeros(s3, n, "[]", "{}");
    TrimZeros(Undo(s), n);
    TrimZeros(Undo(s), 0);
    assert Undo(s) + Zeros(0) == Undo(s);
  }

  lemma FreeWithoutStructure(t: string)
    requires forall c | c in t :: !Structural(c)
    ensures Free(t)
  {
    if Contains(t, "[{") { ContainsFirst(t, "[{"); }
    if Contains(t, "},{") { ContainsFirst(t, "},{"); }
    if Contains(t, "}]") { ContainsFirst(t, "}]"); }
    if Contains(t, "[]") { ContainsFirst(t, "[]"); }
  }

  lemma FieldsCons(f: Field, rest: seq<Field>)
    ensures var fs := [f] + rest;
            && (WellFormedFields(fs) <==> Token(f.key) && WellFormed(f.value) && WellFormedFields(rest))
            && (CleanFields(fs) <==> Free(f.key) && Clean(f.value) && CleanFields(rest))
            && (PlainFields(fs) <==> Plain(f.value) && PlainFields(rest))
  {
    assert ([f] + rest)[1..] == rest;
  }
}

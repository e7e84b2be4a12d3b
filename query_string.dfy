/** The query-string encoding shared by both BuildCommandURL variants. The Go code walks a
    struct by reflection; here a struct is its explicit, ordered list of (json tag, value)
    fields. An emitted field renders as `tag=value`; emitted fields are joined by '&' in
    declaration order and trailing '&' are trimmed. */
module QueryString {
  import opened Text

  /** The field kinds the option structs use: string slices, int, bool and string. */
  datatype Value = Strings(items: seq<string>) | Int(n: int) | Bool(b: bool) | Str(s: string)

  datatype Field = Field(tag: string, value: Value)

  /** Whether a field appears in the query: an empty slice never does; with `intSentinel`
      (the client variant) an int equal to -1 does not either. */
  predicate Emitted(f: Field, intSentinel: bool)
  {
    match f.value
    case Strings(items) => items != []
    case Int(n) => !(intSentinel && n == -1)
    case _ => true
  }

  /** `%v` of a scalar value. */
  function ScalarString(v: Value): string
    requires !v.Strings?
  {
    match v
    case Int(n) => IntString(n)
    case Bool(b) => BoolString(b)
    case Str(s) => s
  }

  /** `tag=value`; a slice renders comma-joined with every trailing comma trimmed. */
  function Render(f: Field): string
  {
    match f.value
    case Strings(items) => f.tag + "=" + TrimRight(Join(items, ","), ',')
    case _ => f.tag + "=" + ScalarString(f.value)
  }

  /** The rendered emitted fields, in declaration order. */
  function Pieces(fs: seq<Field>, intSentinel: bool): (r: seq<string>)
    ensures forall i :: 0 <= i < |r| ==> r[i] != []
    decreases |fs|
  {
    if fs == [] then []
    else
      var last := fs[|fs| - 1];
      Pieces(fs[..|fs| - 1], intSentinel) + (if Emitted(last, intSentinel) then [Render(last)] else [])
  }

  /** Appending `tag=` and every element followed by a comma, then trimming trailing commas,
      appends exactly the rendered slice field. */
  lemma SliceStep(prefix: string, tag: string, items: seq<string>)
    requires items != []
    ensures TrimRight(prefix + tag + "=" + Terminated(items, ","), ',') == prefix + Render(Field(tag, Strings(items)))
  {
    var base := prefix + tag + "=";
    var joined := Join(items, ",");
    assert base[|base| - 1] == '=';
    TerminatedIsJoinedPlusTerm(items, ",");
    TrimAfterBase(base, joined);
    assert Render(Field(tag, Strings(items))) == tag + "=" + TrimRight(joined, ',');
  }

  /** Trimming commas after a base that does not end in a comma leaves the base intact. */
  lemma TrimAfterBase(base: string, joined: string)
    requires base != [] && base[|base| - 1] != ','
    ensures TrimRight(base + (joined + ","), ',') == base + TrimRight(joined, ',')
  {
    TrimRightKeepsPrefix(base, joined + ",", ',');
    TrimRightAppendCut(joined, ',');
  }

  /** One more field extends the pieces by that field's rendering when it is emitted. */
  lemma PiecesStep(fields: seq<Field>, i: nat, intSentinel: bool)
    requires i < |fields|
    ensures !Emitted(fields[i], intSentinel) ==> Pieces(fields[..i + 1], intSentinel) == Pieces(fields[..i], intSentinel)
    ensures Emitted(fields[i], intSentinel) ==> Pieces(fields[..i + 1], intSentinel) == Pieces(fields[..i], intSentinel) + [Render(fields[i])]
  {
    assert fields[..i + 1][..i] == fields[..i];
    assert Pieces(fields[..i], intSentinel) + [] == Pieces(fields[..i], intSentinel);
  }

  /** The query string of a field list. */
  function CommandURL(fs: seq<Field>, intSentinel: bool): string
  {
    TrimRight(Join(Pieces(fs, intSentinel), "&"), '&')
  }

  lemma {:induction false} PiecesAppend(a: seq<Field>, b: seq<Field>, intSentinel: bool)
    ensures Pieces(a + b, intSentinel) == Pieces(a, intSentinel) + Pieces(b, intSentinel)
    decreases |b|
  {
    if b == [] {
      assert a + b == a;
    } else {
      var b' := b[..|b| - 1];
      assert (a + b)[..|a + b| - 1] == a + b';
      PiecesAppend(a, b', intSentinel);
    }
  }

  /** A field that is not emitted can be removed anywhere without changing the query string:
      in particular an empty slice field is omitted entirely. */
  lemma {:induction false} SkippedFieldIsOmitted(a: seq<Field>, f: Field, b: seq<Field>, intSentinel: bool)
    requires !Emitted(f, intSentinel)
    ensures CommandURL(a + [f] + b, intSentinel) == CommandURL(a + b, intSentinel)
  {
    PiecesAppend(a + [f], b, intSentinel);
    PiecesAppend(a, [f], intSentinel);
    PiecesAppend(a, b, intSentinel);
    assert [f][..0] == [];
    assert Pieces([f], intSentinel) == [];
    assert Pieces(a + [f], intSentinel) == Pieces(a, intSentinel);
  }

  /** An empty slice field contributes nothing, for both variants. */
  lemma EmptySliceIsOmitted(a: seq<Field>, tag: string, b: seq<Field>, intSentinel: bool)
    ensures CommandURL(a + [Field(tag, Strings([]))] + b, intSentinel) == CommandURL(a + b, intSentinel)
  {
    SkippedFieldIsOmitted(a, Field(tag, Strings([])), b, intSentinel);
  }

  /** A non-empty slice renders as `tag=e1,e2,...` in element order when its last element
      does not end with a comma. */
  lemma SliceRendersCommaJoined(tag: string, items: seq<string>)
    requires items != [] && (items[|items| - 1] == [] ==> |items| == 1)
    requires items[|items| - 1] != [] ==> items[|items| - 1][|items[|items| - 1]| - 1] != ','
    ensures Render(Field(tag, Strings(items))) == tag + "=" + Join(items, ",")
  {
  }

  /** TrimRight also strips trailing empty elements: they render as if absent. */
  lemma {:induction false} TrailingEmptyElementVanishes(tag: string, items: seq<string>)
    requires items != []
    ensures Render(Field(tag, Strings(items + [""]))) == Render(Field(tag, Strings(items)))
  {
    var s := items + [""];
    assert s[..|s| - 1] == items;
    assert Join(s, ",") == Join(items, ",") + "," + "";
    assert Join(items, ",") + "," + "" == Join(items, ",") + [','];
    TrimRightAppendCut(Join(items, ","), ',');
  }

  /** Whether any emitted field's value ends with '&' (the final trim would eat it). */
  predicate EndsWithAmp(s: string)
  {
    s != [] && s[|s| - 1] == '&'
  }

  /** The query string never ends with '&'. */
  lemma NeverEndsWithAmp(fs: seq<Field>, intSentinel: bool)
    ensures !EndsWithAmp(CommandURL(fs, intSentinel))
  {
  }

  /** When the last rendered field does not itself end with '&', the query string is exactly
      the rendered emitted fields joined by '&', in declaration order. */
  lemma {:induction false} JoinedByAmp(fs: seq<Field>, intSentinel: bool)
    requires var p := Pieces(fs, intSentinel); p != [] ==> !EndsWithAmp(p[|p| - 1])
    ensures CommandURL(fs, intSentinel) == Join(Pieces(fs, intSentinel), "&")
  {
    var p := Pieces(fs, intSentinel);
    var s := Join(p, "&");
    if |p| > 1 {
      assert s == Join(p[..|p| - 1], "&") + "&" + p[|p| - 1];
    }
    if p != [] {
      assert s[|s| - 1] == p[|p| - 1][|p[|p| - 1]| - 1];
    }
  }

  /** The int sentinel is the only difference between the variants: the client variant's
      string is the plain variant's string of the list without its -1 ints. */
  function DropUnsetInts(fs: seq<Field>): (r: seq<Field>)
    ensures forall i :: 0 <= i < |r| ==> r[i] in fs && r[i].value != Int(-1)
    decreases |fs|
  {
    if fs == [] then []
    else
      var last := fs[|fs| - 1];
      DropUnsetInts(fs[..|fs| - 1]) + (if last.value == Int(-1) then [] else [last])
  }

  lemma {:induction false} SentinelOnlyDropsUnsetInts(fs: seq<Field>)
    ensures Pieces(fs, true) == Pieces(DropUnsetInts(fs), false)
    decreases |fs|
  {
    if fs != [] {
      var init := fs[..|fs| - 1];
      var last := fs[|fs| - 1];
      SentinelOnlyDropsUnsetInts(init);
      PiecesAppend(DropUnsetInts(init), if last.value == Int(-1) then [] else [last], false);
      assert [last][..0] == [];
    }
  }

  /** Without -1 ints both variants build the same string. */
  lemma {:induction false} VariantsAgreeWithoutUnsetInts(fs: seq<Field>)
    requires forall i :: 0 <= i < |fs| ==> fs[i].value != Int(-1)
    ensures CommandURL(fs, true) == CommandURL(fs, false)
    decreases |fs|
  {
    if fs != [] {
      VariantsAgreeWithoutUnsetInts(fs[..|fs| - 1]);
      PiecesSame(fs);
    }
  }

  lemma {:induction false} PiecesSame(fs: seq<Field>)
    requires forall i :: 0 <= i < |fs| ==> fs[i].value != Int(-1)
    ensures Pieces(fs, true) == Pieces(fs, false)
    decreases |fs|
  {
    if fs != [] {
      PiecesSame(fs[..|fs| - 1]);
    }
  }

  /** The test struct of the repository's unit tests: two slices and a bool. */
  function TestFields(appServer: seq<string>, environment: seq<string>, disableMerge: bool): seq<Field>
  {
    [Field("appServer", Strings(appServer)), Field("environment", Strings(environment)),
     Field("disableMerge", Bool(disableMerge))]
  }

  /** What one field contributes to the pieces: its rendering when emitted, nothing otherwise. */
  function Piece(f: Field, intSentinel: bool): seq<string>
  {
    if Emitted(f, intSentinel) then [Render(f)] else []
  }

  /** Pieces of a three-field struct, field by field. */
  lemma PiecesOfThree(f0: Field, f1: Field, f2: Field, intSentinel: bool)
    ensures Pieces([f0, f1, f2], intSentinel) == Piece(f0, intSentinel) + Piece(f1, intSentinel) + Piece(f2, intSentinel)
  {
    var x0, x1 := Piece(f0, intSentinel), Piece(f1, intSentinel);
    assert [f0][..0] == [];
    assert Pieces([f0], intSentinel) == x0;
    assert [f0, f1][..1] == [f0];
    assert Pieces([f0, f1], intSentinel) == x0 + x1;
    assert [f0, f1, f2][..2] == [f0, f1];
  }

  /** Pieces of a six-field struct, three fields at a time. */
  lemma PiecesOfSix(f0: Field, f1: Field, f2: Field, f3: Field, f4: Field, f5: Field, intSentinel: bool)
    ensures Pieces([f0, f1, f2, f3, f4, f5], intSentinel)
            == (Piece(f0, intSentinel) + Piece(f1, intSentinel) + Piece(f2, intSentinel))
             + (Piece(f3, intSentinel) + Piece(f4, intSentinel) + Piece(f5, intSentinel))
  {
    assert [f0, f1, f2, f3, f4, f5] == [f0, f1, f2] + [f3, f4, f5];
    PiecesAppend([f0, f1, f2], [f3, f4, f5], intSentinel);
    PiecesOfThree(f0, f1, f2, intSentinel);
    PiecesOfThree(f3, f4, f5, intSentinel);
  }

  /** The first test vector's slice field renders comma-joined. */
  lemma TestAppServersRender()
    ensures Render(Field("appServer", Strings(["TestAppX", "TestAppY"]))) == "appServer=TestAppX,TestAppY"
  {
    var items := ["TestAppX", "TestAppY"];
    assert items[..1] == ["TestAppX"];
    assert Join(items, ",") == "TestAppX,TestAppY";
    assert TrimRight("TestAppX,TestAppY", ',') == "TestAppX,TestAppY";
  }

  /** The emitted pieces of the first test vector. */
  lemma TestVectorFullPieces(intSentinel: bool)
    ensures Pieces(TestFields(["TestAppX", "TestAppY"], ["T"], true), intSentinel)
            == ["appServer=TestAppX,TestAppY", "environment=T", "disableMerge=true"]
  {
    var fs := TestFields(["TestAppX", "TestAppY"], ["T"], true);
    TestAppServersRender();
    assert Render(fs[1]) == "environment=T";
    assert Render(fs[2]) == "disableMerge=true";
    PiecesOfThree(fs[0], fs[1], fs[2], intSentinel);
  }

  /** The repository's first test vector, for both variants: two slices and `true` give
      "appServer=TestAppX,TestAppY&environment=T&disableMerge=true". */
  lemma TestVectorFull(intSentinel: bool)
    ensures CommandURL(TestFields(["TestAppX", "TestAppY"], ["T"], true), intSentinel)
            == "appServer=TestAppX,TestAppY" + "&" + "environment=T" + "&" + "disableMerge=true"
  {
    var fs := TestFields(["TestAppX", "TestAppY"], ["T"], true);
    var a, b, c := "appServer=TestAppX,TestAppY", "environment=T", "disableMerge=true";
    TestVectorFullPieces(intSentinel);
    assert !EndsWithAmp(c);
    JoinedByAmp(fs, intSentinel);
    JoinOfThree(a, b, c, "&");
  }

  /** The repository's second test vector, for both variants: only the bool is emitted. */
  lemma TestVectorDefault(intSentinel: bool)
    ensures CommandURL(TestFields([], [], false), intSentinel) == "disableMerge=false"
  {
    var gs := TestFields([], [], false);
    PiecesOfThree(gs[0], gs[1], gs[2], intSentinel);
    assert Render(gs[2]) == "disableMerge=false";
  }

  lemma JoinOfThree(a: string, b: string, c: string, sep: string)
    ensures Join([a, b, c], sep) == a + sep + b + sep + c
  {
    assert [a, b, c][..2] == [a, b] && [a, b][..1] == [a];
    assert Join([a, b], sep) == a + sep + b;
  }

}

/** cmd/util/common.go: the command-side BuildCommandURL, which has no unset-int sentinel. */
module CmdUtil {
  import opened Text
  import opened QueryString

  /** BuildCommandURL: fields in declaration order as `tag=value`, joined by '&'; only an
      empty slice is left out, so an int renders even when it is -1. */
  method BuildCommandURL(fields: seq<Field>) returns (url: string)
    ensures url == CommandURL(fields, false)
  {
    url := "";
    for i := 0 to |fields|
      invariant url == Terminated(Pieces(fields[..i], false), "&")
    {
      var f := fields[i];
      ghost var before := url;
      ghost var done := Pieces(fields[..i], false);
      PiecesStep(fields, i, false);
      if f.value.Strings? {
        var items := f.value.items;
        if |items| == 0 {
          continue;
        }
        url := url + f.tag + "=";
        ghost var base := url;
        for j := 0 to |items|
          invariant url == base + Terminated(items[..j], ",")
        {
          assert items[..j + 1][..j] == items[..j];
          url := url + items[j] + ",";
        }
        assert items[..|items|] == items;
        SliceStep(before, f.tag, items);
        url := TrimRight(url, ',');
      } else {
        url := url + f.tag + "=" + ScalarString(f.value);
      }
      assert url == before + Render(f);
      TerminatedStep(done, Render(f), "&");
      url := url + "&";
    }
    assert fields[..|fields|] == fields;
    var pieces := Pieces(fields, false);
    if pieces != [] {
      TerminatedIsJoinedPlusTerm(pieces, "&");
      TrimRightAppendCut(Join(pieces, "&"), '&');
    }
    url := TrimRight(url, '&');
  }

  /** An int of -1 is emitted as `tag=-1` here, unlike the client variant. */
  lemma {:induction false} UnsetIntIsEmitted(a: seq<Field>, tag: string)
    ensures Pieces(a + [Field(tag, Int(-1))], false) == Pieces(a, false) + [tag + "=-1"]
    ensures Pieces(a + [Field(tag, Int(-1))], true) == Pieces(a, true)
  {
    var s := a + [Field(tag, Int(-1))];
    assert s[..|s| - 1] == a;
    assert IntString(-1) == "-1" by { assert NatString(1) == "1"; }
    assert Render(Field(tag, Int(-1))) == tag + "=-1";
    assert Pieces(a, true) + [] == Pieces(a, true);
  }
}

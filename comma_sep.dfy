/** `CommaSep`: a display adapter that writes a list's items separated by ", ". */
module CommaSep {

  const Separator: string := ", "

  /** The items joined by the separator: nothing before the first item or after the last. */
  function Join(items: seq<string>): string
  {
    if |items| == 0 then ""
    else if |items| == 1 then items[0]
    else Join(items[..|items| - 1]) + Separator + items[|items| - 1]
  }

  /** An independent description of the same text, built from the front. */
  function JoinFromFront(items: seq<string>): string
  {
    if |items| == 0 then ""
    else items[0] + Prefixed(items[1..])
  }

  /** Each item preceded by the separator. */
  function Prefixed(items: seq<string>): string
  {
    if |items| == 0 then "" else Separator + items[0] + Prefixed(items[1..])
  }

  lemma {:induction false} PrefixedSnoc(items: seq<string>, x: string)
    ensures Prefixed(items + [x]) == Prefixed(items) + Separator + x
  {
    if |items| == 0 {
      assert items + [x] == [x];
      assert [x][1..] == [];
    } else {
      assert (items + [x])[1..] == items[1..] + [x];
      PrefixedSnoc(items[1..], x);
    }
  }

  /** Joining from the back and from the front give the same text. */
  lemma {:induction false} JoinMatchesFromFront(items: seq<string>)
    ensures Join(items) == JoinFromFront(items)
  {
    if |items| >= 2 {
      var init := items[..|items| - 1];
      var last := items[|items| - 1];
      JoinMatchesFromFront(init);
      assert items == init + [last];
      assert items[1..] == init[1..] + [last];
      PrefixedSnoc(init[1..], last);
    } else if |items| == 1 {
      assert items[1..] == [];
    }
  }

  /** Joining nothing is empty; one item is written as it is. */
  lemma JoinSmall(x: string)
    ensures Join([]) == ""
    ensures Join([x]) == x
  {
  }

  /** The joined text starts with the first item and ends with the last. */
  lemma {:induction false} JoinEnds(items: seq<string>)
    requires |items| > 0
    ensures var s := Join(items);
            && |items[0]| <= |s| && s[..|items[0]|] == items[0]
            && |items[|items| - 1]| <= |s| && s[|s| - |items[|items| - 1]|..] == items[|items| - 1]
  {
    JoinMatchesFromFront(items);
  }

  /** Total length: the items' lengths plus one separator between each pair. */
  function TotalLength(items: seq<string>): nat
  {
    if |items| == 0 then 0 else TotalLength(items[..|items| - 1]) + |items[|items| - 1]|
  }

  lemma {:induction false} JoinLength(items: seq<string>)
    requires |items| > 0
    ensures |Join(items)| == TotalLength(items) + |Separator| * (|items| - 1)
  {
    if |items| > 1 {
      JoinLength(items[..|items| - 1]);
    } else {
      assert items[..0] == [];
    }
  }

  /** The display formatter: the text written into it so far. */
  class Formatter {
    var written: string

    constructor ()
      ensures written == ""
    {
      written := "";
    }

    /** `write!(f, "{}", s)`. */
    method Write(s: string)
      modifies this
      ensures written == old(written) + s
    {
      written := written + s;
    }
  }

  /** `fmt`: write each item, preceded by the separator from the second item on. */
  method Fmt(items: seq<string>, f: Formatter)
    modifies f
    ensures f.written == old(f.written) + Join(items)
  {
    for i := 0 to |items|
      invariant f.written == old(f.written) + Join(items[..i])
    {
      if i != 0 {
        f.Write(Separator);
      }
      f.Write(items[i]);
      assert items[..i + 1][..i] == items[..i];
    }
    assert items[..|items|] == items;
  }
}

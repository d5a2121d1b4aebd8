/** String helpers shared by the command builders: JavaScript's `Array.prototype.join`
    and `indexOf`, per-element quoting, and a parser for quoted, comma-separated
    lists that serves as the inverse of quoting-and-joining. */
module Text {

  import opened Optional

  /** `xs.join(sep)`: the elements in order, with `sep` between neighbours only. */
  function Join(xs: seq<string>, sep: string): (r: string)
  {
    if |xs| == 0 then "" else if |xs| == 1 then xs[0] else xs[0] + sep + Join(xs[1..], sep)
  }

  /** The lengths of all elements added up. */
  function TotalLength(xs: seq<string>): nat
  {
    if xs == [] then 0 else |xs[0]| + TotalLength(xs[1..])
  }

  /** `join` adds nothing but the separators: one fewer than there are elements. */
  lemma {:induction false} JoinLength(xs: seq<string>, sep: string)
    requires |xs| > 0
    ensures |Join(xs, sep)| == TotalLength(xs) + (|xs| - 1) * |sep|
  {
    if |xs| > 1 {
      JoinLength(xs[1..], sep);
    }
  }

  /** Every element wrapped in the quote `q` on both sides. */
  function Wrapped(q: string, xs: seq<string>): (r: seq<string>)
    ensures |r| == |xs|
    ensures forall i :: 0 <= i < |xs| ==> r[i] == q + xs[i] + q
  {
    if xs == [] then [] else [q + xs[0] + q] + Wrapped(q, xs[1..])
  }

  /** `xs.indexOf(x)` with strict equality: the first position of `x`, or -1. */
  function IndexOf<T(==)>(xs: seq<T>, x: T): (r: int)
    ensures -1 <= r < |xs|
    ensures r == -1 <==> x !in xs
    ensures 0 <= r ==> xs[r] == x && x !in xs[..r]
  {
    if xs == [] then -1
    else if xs[0] == x then 0
    else
      var k := IndexOf(xs[1..], x);
      assert xs == [xs[0]] + xs[1..];
      if k == -1 then -1
      else
        assert xs[..k + 1] == [xs[0]] + xs[1..][..k];
        k + 1
  }

  /** `pat` occurs in `s` starting at position `p`. */
  predicate MatchAt(s: string, pat: string, p: int)
  {
    0 <= p && p + |pat| <= |s| && s[p..p + |pat|] == pat
  }

  /** The first occurrence of `pat` in `s` at or after `from`. */
  function Find(s: string, pat: string, from: nat): (r: Option<nat>)
    decreases |s| - from
    ensures r.Some? ==> from <= r.value && MatchAt(s, pat, r.value)
    ensures r.Some? ==> forall p :: from <= p < r.value ==> !MatchAt(s, pat, p)
    ensures r.None? ==> forall p :: from <= p ==> !MatchAt(s, pat, p)
  {
    if from + |pat| > |s| then None
    else if s[from..from + |pat|] == pat then Some(from)
    else Find(s, pat, from + 1)
  }

  /** Reads one `q item q` from the front of `s`, taking as its end the first
      occurrence of `q` after the opening quote; gives the item and what follows. */
  function NextItem(q: string, s: string): (r: Option<(string, string)>)
    requires |q| > 0
    ensures r.Some? ==> |r.value.1| + 2 * |q| <= |s|
  {
    if |s| < |q| || s[..|q|] != q then None
    else
      match Find(s, q, |q|)
      case None => None
      case Some(p) => Some((s[|q|..p], s[p + |q|..]))
  }

  /** Reads `q item q` items separated by ", " from the whole of `s`. */
  function ParseItems(q: string, s: string): (r: Option<seq<string>>)
    requires |q| > 0
    decreases |s|
    ensures r.Some? ==> |r.value| > 0
  {
    match NextItem(q, s)
    case None => None
    case Some((item, rest)) =>
      if rest == "" then Some([item])
      else if |rest| >= 2 && rest[..2] == ", " then
        match ParseItems(q, rest[2..])
        case None => None
        case Some(tail) => Some([item] + tail)
      else None
  }

  /** A possibly empty list of quoted items. */
  function ParseList(q: string, s: string): Option<seq<string>>
    requires |q| > 0
  {
    if s == "" then Some([]) else ParseItems(q, s)
  }

  /** Joining with the separator `q, q` and quoting both ends, as the page's
      templates do, is the same as quoting every element and joining with ", ". */
  lemma {:induction false} JoinQuoted(q: string, xs: seq<string>)
    requires |xs| > 0
    ensures q + Join(xs, q + ", " + q) + q == Join(Wrapped(q, xs), ", ")
  {
    var w := Wrapped(q, xs);
    if |xs| == 1 {
      assert w == [q + xs[0] + q];
    } else {
      assert w[1..] == Wrapped(q, xs[1..]);
      JoinQuoted(q, xs[1..]);
      calc {
        q + Join(xs, q + ", " + q) + q;
        q + (xs[0] + (q + ", " + q) + Join(xs[1..], q + ", " + q)) + q;
        (q + xs[0] + q) + ", " + (q + Join(xs[1..], q + ", " + q) + q);
        w[0] + ", " + Join(w[1..], ", ");
      }
    }
  }

  /** Prepending one quoted element in front of a quoted, joined list. */
  lemma JoinWrappedCons(q: string, x: string, xs: seq<string>)
    requires |xs| > 0
    ensures q + x + q + ", " + Join(Wrapped(q, xs), ", ") == Join(Wrapped(q, [x] + xs), ", ")
  {
    assert ([x] + xs)[1..] == xs;
    assert Wrapped(q, [x] + xs) == [q + x + q] + Wrapped(q, xs);
  }

  /** No occurrence of `q` starts inside `x` when `q` holds a double quote and
      `x` holds none: that occurrence's first double quote would have nowhere to be. */
  lemma NoMatchInside(q: string, x: string, rest: string, p: int)
    requires '"' in q && '"' !in x
    requires |q| <= p < |q| + |x|
    ensures !MatchAt(q + x + q + rest, q, p)
  {
    var s := q + x + q + rest;
    var L := |q|;
    var k := IndexOf(q, '"');
    var i := p + k;
    if i < L + |x| {
      assert s[i] == x[i - L];
    } else {
      var j := i - L - |x|;
      assert s[i] == q[j] == q[..k][j];
    }
    assert s[i] != '"';
    if p + L <= |s| {
      assert s[p..p + L][k] == s[i];
    }
  }

  /** When `q` holds a double quote and `x` holds none, the first `q` after an
      opening `q` is the one that closes `x`. */
  lemma ClosingQuote(q: string, x: string, rest: string)
    requires '"' in q && '"' !in x
    ensures Find(q + x + q + rest, q, |q|) == Some(|q| + |x|)
  {
    var s := q + x + q + rest;
    var L := |q|;
    forall p | L <= p < L + |x|
      ensures !MatchAt(s, q, p)
    {
      NoMatchInside(q, x, rest, p);
    }
    assert s[L + |x|..L + |x| + L] == q;
    assert MatchAt(s, q, L + |x|);
  }

  /** The quoted item `x` at the front of the text is read back as exactly `x`,
      and what follows its closing quote is left for the rest of the parse. */
  lemma NextItemOf(q: string, x: string, rest: string)
    requires '"' in q && '"' !in x
    ensures NextItem(q, q + x + q + rest) == Some((x, rest))
  {
    ClosingQuote(q, x, rest);
    QuotedSlices(q, x, rest);
  }

  /** Where the three parts of `q x q rest` sit. */
  lemma QuotedSlices(q: string, x: string, rest: string)
    ensures var s := q + x + q + rest;
      s[..|q|] == q && s[|q|..|q| + |x|] == x && s[|q| + |x| + |q|..] == rest
  {
  }

  /** The last item of a list. */
  lemma ParseLastItem(q: string, x: string)
    requires '"' in q && '"' !in x
    ensures ParseItems(q, q + x + q) == Some([x])
  {
    NextItemOf(q, x, "");
    assert q + x + q + "" == q + x + q;
  }

  /** An item followed by ", " and more items. */
  lemma ParseNextItem(q: string, x: string, more: string)
    requires '"' in q && '"' !in x
    ensures ParseItems(q, q + x + q + (", " + more)) ==
      match ParseItems(q, more)
      case None => None
      case Some(tail) => Some([x] + tail)
  {
    var rest := ", " + more;
    NextItemOf(q, x, rest);
    assert rest[..2] == ", " && rest[2..] == more;
  }

  /** Parsing inverts quoting-and-joining for items free of double quotes. */
  lemma {:induction false} ParseListRoundTrip(q: string, xs: seq<string>)
    requires '"' in q
    requires forall i :: 0 <= i < |xs| ==> '"' !in xs[i]
    ensures ParseList(q, Join(Wrapped(q, xs), ", ")) == Some(xs)
  {
    if xs != [] {
      var w := Wrapped(q, xs);
      var x := xs[0];
      if |xs| == 1 {
        assert w == [q + x + q];
        ParseLastItem(q, x);
        assert xs == [x];
      } else {
        var tail := Join(Wrapped(q, xs[1..]), ", ");
        assert w[1..] == Wrapped(q, xs[1..]);
        assert Join(w, ", ") == q + x + q + (", " + tail);
        ParseNextItem(q, x, tail);
        ParseListRoundTrip(q, xs[1..]);
        assert tail != "";
        assert xs == [x] + xs[1..];
      }
    }
  }
}

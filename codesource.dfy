/** The CodeSource plugin (codesource/codesource.py): the source text of a
    command, cut by Red's `pagify` into chunks, each wrapped in a Python
    code block and numbered "Page i/N", then shown as a reaction menu. */
module CodeSource {
  import opened Wrappers
  import opened Strings

  const Fence: string := "```"

  /** U+17B5, the invisible character put inside a fence of the source so
      that it no longer closes the code block. */
  const Marker: char := '\U{17b5}'

  /** `str(page).replace("```", "`឵``")`. */
  function Escape(chunk: string): string {
    ReplaceAll(chunk, Fence, ['`', Marker, '`', '`'])
  }

  /** One chunk as a Python code block (codesource/codesource.py:41). */
  function Wrap(chunk: string): string {
    "```py\n" + Escape(chunk) + Fence
  }

  /** The line put before page `i` of `n` (codesource/codesource.py:45). */
  function PageLabel(i: nat, n: nat): string {
    "Page " + NatToString(i) + "/" + NatToString(n) + "\n"
  }

  /** What the command answers. */
  datatype Reply = CommandNotFound | Menu(pages: seq<string>)

  /** `codesource` (codesource/codesource.py:29-47). `source` is the source
      text of the named command, `None` when no command has that name;
      `pagify` is Red's chunking of it. */
  method CodeSource(source: Option<string>, pagify: string -> seq<string>) returns (r: Reply)
    ensures source.None? <==> r == CommandNotFound
    ensures source.Some? ==>
      var chunks := pagify(source.value);
      && r.Menu? && |r.pages| == |chunks|
      && forall i :: 0 <= i < |chunks| ==> r.pages[i] == PageLabel(i + 1, |chunks|) + Wrap(chunks[i])
  {
    if source.None? {
      return CommandNotFound;
    }
    var chunks := pagify(source.value);
    var tempPages: seq<string> := [];
    for k := 0 to |chunks|
      invariant |tempPages| == k
      invariant forall j :: 0 <= j < k ==> tempPages[j] == Wrap(chunks[j])
    {
      tempPages := tempPages + [Wrap(chunks[k])];
    }
    var maxI := |tempPages|;
    var pages: seq<string> := [];
    var i := 1;
    for k := 0 to |tempPages|
      invariant i == k + 1
      invariant |pages| == k
      invariant forall j :: 0 <= j < k ==> pages[j] == PageLabel(j + 1, maxI) + tempPages[j]
    {
      pages := pages + [PageLabel(i, maxI) + tempPages[k]];
      i := i + 1;
    }
    r := Menu(pages);
  }

  // ---------------------------------------------------------------------
  // Reading a page back

  /** The decimal digits at the start of `s`. */
  function LeadingDigits(s: string): (d: string)
    ensures AllDigits(d) && |d| <= |s| && d == s[..|d|]
    decreases |s|
  {
    if s == [] || !IsDigit(s[0]) then "" else [s[0]] + LeadingDigits(s[1..])
  }

  lemma {:induction false} LeadingDigitsOf(d: string, rest: string)
    requires AllDigits(d)
    requires rest != [] && !IsDigit(rest[0])
    ensures LeadingDigits(d + rest) == d
    decreases |d|
  {
    if d != [] {
      assert (d + rest)[1..] == d[1..] + rest;
      LeadingDigitsOf(d[1..], rest);
    } else {
      assert d + rest == rest;
    }
  }

  /** The page number and the page count a page starts with. */
  function ReadLabel(page: string): Option<(nat, nat)> {
    if !StartsWith(page, "Page ") then None else ReadCounts(page[5..])
  }

  /** "i/n" at the start of `s`. */
  function ReadCounts(s: string): Option<(nat, nat)> {
    var first := LeadingDigits(s);
    var after := s[|first|..];
    if first == "" || after == [] || after[0] != '/' then None
    else
      var second := LeadingDigits(after[1..]);
      if second == "" then None else Some((DigitsValue(first), DigitsValue(second)))
  }

  lemma ReadCountsOf(a: string, b: string, body: string)
    requires a != "" && AllDigits(a) && b != "" && AllDigits(b)
    ensures ReadCounts(a + ("/" + (b + ("\n" + body)))) == Some((DigitsValue(a), DigitsValue(b)))
  {
    var tail := "/" + (b + ("\n" + body));
    LeadingDigitsOf(a, tail);
    assert (a + tail)[|a|..] == tail;
    assert tail[1..] == b + ("\n" + body);
    LeadingDigitsOf(b, "\n" + body);
  }

  /** The label reads back as the numbers it was written from. */
  lemma ReadLabelOfPageLabel(i: nat, n: nat, body: string)
    ensures ReadLabel(PageLabel(i, n) + body) == Some((i, n))
  {
    var a, b := NatToString(i), NatToString(n);
    var counts := a + ("/" + (b + ("\n" + body)));
    assert PageLabel(i, n) + body == "Page " + counts;
    assert ("Page " + counts)[5..] == counts;
    ReadCountsOf(a, b, body);
    NatToStringRoundTrip(i);
    NatToStringRoundTrip(n);
  }

  /** Every page of the menu starts with its own 1-based number and the
      number of pages; so no two pages are the same text. */
  lemma PagesNumbered(source: string, pagify: string -> seq<string>, pages: seq<string>)
    requires var chunks := pagify(source);
      |pages| == |chunks| && forall i :: 0 <= i < |chunks| ==> pages[i] == PageLabel(i + 1, |chunks|) + Wrap(chunks[i])
    ensures forall i :: 0 <= i < |pages| ==> ReadLabel(pages[i]) == Some((i + 1, |pages|))
    ensures forall i, j :: 0 <= i < j < |pages| ==> pages[i] != pages[j]
  {
    var chunks := pagify(source);
    forall i | 0 <= i < |pages|
      ensures ReadLabel(pages[i]) == Some((i + 1, |pages|))
    {
      ReadLabelOfPageLabel(i + 1, |chunks|, Wrap(chunks[i]));
    }
  }

  // ---------------------------------------------------------------------
  // The escaping

  /** `s` with every occurrence of `c` taken out. */
  function Strip(s: string, c: char): (r: string)
    ensures c !in r
    decreases |s|
  {
    if s == [] then [] else (if s[0] == c then [] else [s[0]]) + Strip(s[1..], c)
  }

  lemma {:induction false} StripAppend(a: string, b: string, c: char)
    ensures Strip(a + b, c) == Strip(a, c) + Strip(b, c)
    decreases |a|
  {
    if a != [] {
      assert (a + b)[1..] == a[1..] + b;
      StripAppend(a[1..], b, c);
    } else {
      assert a + b == b;
    }
  }

  /** Escaping only inserts the marker: taking it out again gives back any
      chunk that did not contain it. */
  lemma {:induction false} UnescapeRoundTrip(chunk: string)
    requires Marker !in chunk
    ensures Strip(Escape(chunk), Marker) == chunk
    decreases |chunk|
  {
    var replacement := ['`', Marker, '`', '`'];
    if |chunk| < |Fence| {
      StripUnmarked(chunk);
    } else if chunk[..3] == Fence {
      var rest := chunk[3..];
      assert Marker !in rest by {
        forall k | 0 <= k < |rest| ensures rest[k] != Marker {
          assert rest[k] == chunk[k + 3];
        }
      }
      UnescapeRoundTrip(rest);
      StripAppend(replacement, Escape(rest), Marker);
      StripReplacement();
      assert chunk == Fence + rest;
    } else {
      var rest := chunk[1..];
      assert Marker !in rest by {
        forall k | 0 <= k < |rest| ensures rest[k] != Marker {
          assert rest[k] == chunk[k + 1];
        }
      }
      UnescapeRoundTrip(rest);
      StripAppend([chunk[0]], Escape(rest), Marker);
      assert chunk == [chunk[0]] + rest;
    }
  }

  /** The replacement is a fence with the marker inside. */
  lemma StripReplacement()
    ensures Strip(['`', Marker, '`', '`'], Marker) == Fence
  {
    var one, two, three, four := ['`'], ['`', '`'], [Marker, '`', '`'], ['`', Marker, '`', '`'];
    assert one[1..] == [] && two[1..] == one && three[1..] == two && four[1..] == three;
    assert Strip(one, Marker) == ['`'];
    assert Strip(two, Marker) == ['`', '`'];
    assert Strip(three, Marker) == ['`', '`'];
  }

  lemma {:induction false} StripUnmarked(s: string)
    requires Marker !in s
    ensures Strip(s, Marker) == s
    decreases |s|
  {
    if s != [] {
      assert Marker !in s[1..] by {
        forall k | 0 <= k < |s| - 1 ensures s[1..][k] != Marker {
          assert s[1..][k] == s[k + 1];
        }
      }
      StripUnmarked(s[1..]);
      assert s == [s[0]] + s[1..];
    }
  }

  /** The escaping is not complete: in a run of four backticks the first
      three are broken up, and the fourth joins the two the replacement
      ends with into a new fence, which closes the code block early. */
  lemma FourBackticksStillFence()
    ensures Contains(Escape("````"), Fence)
  {
    var escaped := Escape("````");
    assert "````"[..3] == Fence && "````"[3..] == "`";
    assert escaped == ['`', Marker, '`', '`', '`'];
    assert StartsWith(escaped[2..], Fence);
  }

  /** A chunk with no backtick is shown as it is. */
  lemma {:induction false} NoBacktickUnchanged(chunk: string)
    requires '`' !in chunk
    ensures Escape(chunk) == chunk
    decreases |chunk|
  {
    if |chunk| >= |Fence| {
      assert chunk[0] != '`';
      assert chunk[..3] != Fence;
      assert '`' !in chunk[1..] by {
        forall k | 0 <= k < |chunk| - 1 ensures chunk[1..][k] != '`' {
          assert chunk[1..][k] == chunk[k + 1];
        }
      }
      NoBacktickUnchanged(chunk[1..]);
      assert chunk == [chunk[0]] + chunk[1..];
    }
  }
}

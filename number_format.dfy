/** `Layernet.formatNumber`: the decimal text of a number with '.' as the
    thousands separator. The source inserts the separator with a regular
    expression that matches every position between two digits that is followed
    by a positive multiple of three digits up to the end of the digit string;
    `Separate` reads that rule position by position. */
module NumberFormat {
  import opened Decimal

  /** Inserts '.' between two characters of `d` exactly where the number of
      characters to the right is a positive multiple of 3. */
  function Separate(d: string): (r: string)
  {
    if |d| == 0 then []
    else [d[0]] + (if |d| > 1 && (|d| - 1) % 3 == 0 then "." else "") + Separate(d[1..])
  }

  /** One separator for every full group of three digits after the first
      group, and the text starts with the leading digit. */
  function FormatNumber(n: nat): (r: string)
    ensures |r| == |Digits(n)| + (|Digits(n)| - 1) / 3
    ensures r[0] == Digits(n)[0]
  {
    SeparateLength(Digits(n));
    Separate(Digits(n))
  }

  /** `Separate` adds one character for every full group of three after the
      first, and keeps the leading character in front. */
  lemma {:induction false} SeparateLength(d: string)
    requires |d| >= 1
    ensures |Separate(d)| == |d| + (|d| - 1) / 3
    ensures Separate(d)[0] == d[0]
  {
    if |d| > 1 {
      SeparateLength(d[1..]);
    }
  }

  function RemoveDots(s: string): (r: string)
    ensures '.' !in r
  {
    if s == [] then []
    else (if s[0] == '.' then [] else [s[0]]) + RemoveDots(s[1..])
  }

  /** The digit groups of `d`, cut every three characters from the right. */
  function Groups(d: string): (gs: seq<string>)
    requires |d| >= 1
    ensures |gs| >= 1 && 1 <= |gs[0]| <= 3
    ensures forall k :: 1 <= k < |gs| ==> |gs[k]| == 3
    ensures Concat(gs) == d
    ensures AllDigits(d) ==> forall k :: 0 <= k < |gs| ==> AllDigits(gs[k])
    decreases |d|
  {
    if |d| <= 3 then
      assert Concat([d]) == Concat([]) + d;
      [d]
    else
      var head, last := d[..|d| - 3], d[|d| - 3..];
      var init := Groups(head);
      var gs := init + [last];
      assert Concat(gs) == d by {
        assert gs[..|gs| - 1] == init;
        assert d == head + last;
      }
      assert AllDigits(d) ==> AllDigits(head) && AllDigits(last) by {
        if AllDigits(d) {
          assert forall i :: 0 <= i < |head| ==> head[i] == d[i];
          assert forall i :: 0 <= i < |last| ==> last[i] == d[|d| - 3 + i];
        }
      }
      gs
  }

  function Concat(gs: seq<string>): (r: string)
  {
    if gs == [] then [] else Concat(gs[..|gs| - 1]) + gs[|gs| - 1]
  }

  function JoinDots(gs: seq<string>): (r: string)
    requires |gs| >= 1
  {
    if |gs| == 1 then gs[0] else JoinDots(gs[..|gs| - 1]) + "." + gs[|gs| - 1]
  }

  /** Index of the last '.' in `s`, or -1 when there is none. */
  function LastDot(s: string): (i: int)
    ensures -1 <= i < |s|
    ensures i >= 0 ==> s[i] == '.'
    ensures forall j :: i < j < |s| ==> s[j] != '.'
  {
    if s == [] then -1
    else if s[|s| - 1] == '.' then |s| - 1
    else LastDot(s[..|s| - 1])
  }

  /** The pieces of `s` between the '.' characters. */
  function SplitDots(s: string): (gs: seq<string>)
    ensures |gs| >= 1
    decreases |s|
  {
    var i := LastDot(s);
    if i < 0 then [s] else SplitDots(s[..i]) + [s[i + 1..]]
  }

  lemma LastDotOf(a: string, b: string)
    requires '.' !in b
    ensures LastDot(a + "." + b) == |a|
  {
    var s := a + "." + b;
    assert s[|a|] == '.';
  }

  /** Splitting at the dots undoes joining with dots, for dot-free pieces. */
  lemma {:induction false} SplitJoin(gs: seq<string>)
    requires |gs| >= 1
    requires forall k :: 0 <= k < |gs| ==> '.' !in gs[k]
    ensures SplitDots(JoinDots(gs)) == gs
  {
    if |gs| > 1 {
      var init := gs[..|gs| - 1];
      var last := gs[|gs| - 1];
      var s := JoinDots(init) + "." + last;
      LastDotOf(JoinDots(init), last);
      assert s[..|JoinDots(init)|] == JoinDots(init);
      assert s[|JoinDots(init)| + 1..] == last;
      SplitJoin(init);
    } else {
      assert LastDot(gs[0]) == -1;
    }
  }

  /** A separator before a block whose length is a positive multiple of 3. */
  lemma {:induction false} SeparateAppend(a: string, b: string)
    requires |a| >= 1 && |b| >= 1 && |b| % 3 == 0
    ensures Separate(a + b) == Separate(a) + "." + Separate(b)
    decreases |a|
  {
    var ab := a + b;
    assert ab[0] == a[0] && ab[1..] == a[1..] + b;
    assert (|ab| - 1) % 3 == (|a| - 1) % 3 by {
      assert |ab| - 1 == (|a| - 1) + |b|;
    }
    if |a| > 1 {
      var sep := if (|a| - 1) % 3 == 0 then "." else "";
      assert Separate(ab) == [a[0]] + sep + Separate(a[1..] + b);
      SeparateAppend(a[1..], b);
      assert Separate(a) == [a[0]] + sep + Separate(a[1..]);
    } else {
      assert Separate(ab) == [a[0]] + "." + Separate(b);
      assert Separate(a) == [a[0]] + Separate([]);
    }
  }

  /** Strings of at most three characters get no separator. */
  lemma {:induction false} SeparateShort(d: string)
    requires |d| <= 3
    ensures Separate(d) == d
  {
    if |d| > 0 {
      SeparateShort(d[1..]);
    }
  }

  /** The formatted text is the groups of `d` joined with '.'. */
  lemma {:induction false} SeparateIsJoin(d: string)
    requires |d| >= 1
    ensures Separate(d) == JoinDots(Groups(d))
    decreases |d|
  {
    if |d| <= 3 {
      SeparateShort(d);
    } else {
      var a, b := d[..|d| - 3], d[|d| - 3..];
      assert d == a + b;
      SeparateAppend(a, b);
      SeparateShort(b);
      SeparateIsJoin(a);
      var gs := Groups(a) + [b];
      assert gs[..|gs| - 1] == Groups(a);
    }
  }

  /** Deleting the separators gives back the input. */
  lemma {:induction false} RemoveDotsSeparate(d: string)
    requires AllDigits(d)
    ensures RemoveDots(Separate(d)) == d
  {
    if |d| > 0 {
      var sep := if |d| > 1 && (|d| - 1) % 3 == 0 then "." else "";
      RemoveDotsAppend([d[0]] + sep, Separate(d[1..]));
      RemoveDotsAppend([d[0]], sep);
      RemoveDotsSeparate(d[1..]);
      assert d == [d[0]] + d[1..];
    }
  }

  lemma {:induction false} RemoveDotsAppend(a: string, b: string)
    ensures RemoveDots(a + b) == RemoveDots(a) + RemoveDots(b)
  {
    if a != [] {
      var head := if a[0] == '.' then [] else [a[0]];
      assert (a + b)[0] == a[0];
      assert (a + b)[1..] == a[1..] + b;
      RemoveDotsAppend(a[1..], b);
      calc {
        RemoveDots(a + b);
        head + RemoveDots(a[1..] + b);
        head + (RemoveDots(a[1..]) + RemoveDots(b));
        (head + RemoveDots(a[1..])) + RemoveDots(b);
      }
    } else {
      assert a + b == b;
    }
  }

  /** formatNumber only inserts '.': removing them gives the decimal digits of
      `n`, which read back as `n`. */
  lemma FormatNumberDigits(n: nat)
    ensures RemoveDots(FormatNumber(n)) == Digits(n)
    ensures ParseDecimal(RemoveDots(FormatNumber(n))) == n
  {
    RemoveDotsSeparate(Digits(n));
    ParseDigits(n);
  }

  /** The pieces between the separators are the three-digit groups of `n`:
      the first has one to three digits, every later one exactly three, and
      together they spell the decimal digits of `n`. */
  lemma FormatNumberGroups(n: nat)
    ensures var gs := SplitDots(FormatNumber(n));
      && 1 <= |gs[0]| <= 3
      && (forall k :: 1 <= k < |gs| ==> |gs[k]| == 3)
      && (forall k :: 0 <= k < |gs| ==> AllDigits(gs[k]))
      && Concat(gs) == Digits(n)
  {
    var d := Digits(n);
    var gs := Groups(d);
    SeparateIsJoin(d);
    forall k | 0 <= k < |gs|
      ensures '.' !in gs[k]
    {
      assert AllDigits(gs[k]);
    }
    SplitJoin(gs);
  }

  /** Values below 1000 are printed without a separator. */
  lemma FormatNumberSmall(n: nat)
    requires n < 1000
    ensures FormatNumber(n) == Digits(n)
  {
    DigitsLength(n, 3);
    SeparateShort(Digits(n));
  }

  /** From 1000 on there is at least one separator. */
  lemma FormatNumberLarge(n: nat)
    requires n >= 1000
    ensures '.' in FormatNumber(n)
  {
    var d := Digits(n);
    DigitsLength(n, 3);
    SeparateIsJoin(d);
    var gs := Groups(d);
    assert FormatNumber(n) == JoinDots(gs[..|gs| - 1]) + "." + gs[|gs| - 1];
    assert FormatNumber(n)[|JoinDots(gs[..|gs| - 1])|] == '.';
  }
}

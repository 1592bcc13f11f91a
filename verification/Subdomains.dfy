/** GetSubdomains of signer.go. */
module Subdomains {

  // ----- names and labels -----

  /** A character in front of a list of labels. */
  function Cons(c: char, ls: seq<string>): (r: seq<string>)
    requires ls != []
    ensures r != []
  {
    if c == '.' then [""] + ls else [[c] + ls[0]] + ls[1..]
  }

  /** strings.Split(s, ".") */
  function Split(s: string): (r: seq<string>)
    ensures |r| >= 1
  {
    if s == "" then [""] else Cons(s[0], Split(s[1..]))
  }

  function Join(ls: seq<string>): string
    requires ls != []
  {
    if |ls| == 1 then ls[0] else ls[0] + "." + Join(ls[1..])
  }

  /** strings.Count(s, ".") */
  function Dots(s: string): nat {
    if s == "" then 0 else (if s[0] == '.' then 1 else 0) + Dots(s[1..])
  }

  lemma {:induction false} DotsSeparate(s: string)
    ensures Dots(s) + 1 == |Split(s)|
    decreases |s|
  {
    if s != "" {
      DotsSeparate(s[1..]);
    }
  }

  lemma JoinCons(c: char, ls: seq<string>)
    requires ls != []
    ensures Join(Cons(c, ls)) == [c] + Join(ls)
  {
    if c == '.' {
      assert Cons(c, ls)[1..] == ls;
      assert "" + "." + Join(ls) == [c] + Join(ls);
    } else {
      assert Cons(c, ls)[1..] == ls[1..];
      if |ls| > 1 {
        assert ([c] + ls[0]) + "." + Join(ls[1..]) == [c] + (ls[0] + "." + Join(ls[1..]));
      }
    }
  }

  lemma {:induction false} JoinSplit(s: string)
    ensures Join(Split(s)) == s
    decreases |s|
  {
    if s != "" {
      JoinSplit(s[1..]);
      JoinCons(s[0], Split(s[1..]));
    }
  }

  lemma ConsAppend(c: char, t: seq<string>, u: seq<string>)
    requires t != []
    ensures Cons(c, t + u) == Cons(c, t) + u
  {
    assert (t + u)[0] == t[0] && (t + u)[1..] == t[1..] + u;
  }

  lemma {:induction false} SplitAtDot(a: string, b: string)
    ensures Split(a + "." + b) == Split(a) + Split(b)
    decreases |a|
  {
    var s := a + "." + b;
    if a == "" {
      assert s[0] == '.' && s[1..] == b;
    } else {
      var rest := a[1..] + "." + b;
      assert s[0] == a[0] && s[1..] == rest;
      SplitAtDot(a[1..], b);
      ConsAppend(a[0], Split(a[1..]), Split(b));
    }
  }

  lemma {:induction false} JoinAtDot(a: seq<string>, b: seq<string>)
    requires a != [] && b != []
    ensures Join(a + b) == Join(a) + "." + Join(b)
    decreases |a|
  {
    if |a| == 1 {
      assert (a + b)[1..] == b;
    } else {
      assert (a + b)[1..] == a[1..] + b;
      JoinAtDot(a[1..], b);
      assert a[0] + "." + (Join(a[1..]) + "." + Join(b)) == (a[0] + "." + Join(a[1..])) + "." + Join(b);
    }
  }

  /** s is the name itself, or what follows one of its dots. */
  predicate Aligned(domain: string, s: string) {
    var cut := |domain| - |s|;
    s == domain || (cut > 0 && domain[cut - 1] == '.' && domain[cut..] == s)
  }

  /** The name without its first i labels. */
  function Tail(domain: string, i: nat): string
    requires i < |Split(domain)|
  {
    Join(Split(domain)[i..])
  }

  lemma TailIsAligned(domain: string, i: nat)
    requires i < |Split(domain)|
    ensures Aligned(domain, Tail(domain, i))
  {
    var parts := Split(domain);
    JoinSplit(domain);
    if i == 0 {
      assert parts[0..] == parts;
    } else {
      assert parts == parts[..i] + parts[i..];
      JoinAtDot(parts[..i], parts[i..]);
      assert domain == Join(parts[..i]) + "." + Tail(domain, i);
    }
  }

  lemma AlignedIsTail(domain: string, s: string)
    requires Aligned(domain, s)
    ensures |Split(s)| <= |Split(domain)| && Split(domain)[|Split(domain)| - |Split(s)|..] == Split(s)
    ensures s == Tail(domain, |Split(domain)| - |Split(s)|)
  {
    JoinSplit(s);
    if s != domain {
      var a := domain[..|domain| - |s| - 1];
      assert domain == a + "." + s;
      SplitAtDot(a, s);
    }
  }

  lemma TailsShrink(domain: string, i: nat, j: nat)
    requires i < j < |Split(domain)|
    ensures |Tail(domain, i)| > |Tail(domain, j)|
  {
    var parts := Split(domain);
    assert parts[i..] == parts[i..j] + parts[j..];
    JoinAtDot(parts[i..j], parts[j..]);
  }

  // ----- the general names of a name -----

  /** The name and its parents below `tld`, most specific first; only the name if it is `tld`. */
  function Below(domain: string, tld: string): seq<string>
    requires Aligned(domain, tld)
  {
    AlignedIsTail(domain, tld);
    if tld == domain then [domain]
    else seq(|Split(domain)| - |Split(tld)|, i requires 0 <= i < |Split(domain)| - |Split(tld)| => Tail(domain, i))
  }

  lemma BelowAt(domain: string, tld: string)
    requires Aligned(domain, tld) && tld != domain
    ensures var n := |Split(domain)| - |Split(tld)|;
            && 0 < n < |Split(domain)| && |Below(domain, tld)| == n && tld == Tail(domain, n)
            && forall i :: 0 <= i < n ==> Below(domain, tld)[i] == Tail(domain, i)
  {
    AlignedIsTail(domain, tld);
    JoinSplit(domain);
    assert Split(domain)[0..] == Split(domain);
  }

  lemma OnlyAlignedBelow(domain: string, tld: string, i: nat)
    requires Aligned(domain, tld) && tld != domain && i < |Below(domain, tld)|
    ensures Aligned(domain, Below(domain, tld)[i]) && |Below(domain, tld)[i]| > |tld|
  {
    BelowAt(domain, tld);
    TailIsAligned(domain, i);
    TailsShrink(domain, i, |Below(domain, tld)|);
  }

  lemma LongerIsEarlier(domain: string, i: nat, n: nat)
    requires i < |Split(domain)| && n < |Split(domain)| && |Tail(domain, i)| > |Tail(domain, n)|
    ensures i < n
  {
    if i > n {
      TailsShrink(domain, n, i);
    }
  }

  lemma TailIndex(domain: string, s: string) returns (i: nat)
    requires Aligned(domain, s)
    ensures i < |Split(domain)| && s == Tail(domain, i)
  {
    AlignedIsTail(domain, s);
    i := |Split(domain)| - |Split(s)|;
  }

  lemma EveryAlignedBelow(domain: string, tld: string, s: string)
    requires Aligned(domain, tld) && tld != domain && Aligned(domain, s) && |s| > |tld|
    ensures s in Below(domain, tld)
  {
    var i := TailIndex(domain, s);
    BelowAt(domain, tld);
    LongerIsEarlier(domain, i, |Below(domain, tld)|);
    assert Below(domain, tld)[i] == s;
  }

  /** Below holds exactly the label-aligned suffixes longer than tld, the longest first. */
  lemma BelowIsExact(domain: string, tld: string)
    requires Aligned(domain, tld) && tld != domain
    ensures forall s :: s in Below(domain, tld) <==> Aligned(domain, s) && |s| > |tld|
    ensures forall i, j :: 0 <= i < j < |Below(domain, tld)| ==> |Below(domain, tld)[i]| > |Below(domain, tld)[j]|
  {
    var names := Below(domain, tld);
    forall s | s in names ensures Aligned(domain, s) && |s| > |tld| {
      var i :| 0 <= i < |names| && names[i] == s;
      OnlyAlignedBelow(domain, tld, i);
    }
    forall s | Aligned(domain, s) && |s| > |tld| ensures s in names {
      EveryAlignedBelow(domain, tld, s);
    }
    forall i, j | 0 <= i < j < |names| ensures |names[i]| > |names[j]| {
      BelowAt(domain, tld);
      TailsShrink(domain, i, j);
    }
  }

  // ----- what the code computes -----

  function Concat(ls: seq<string>): string {
    if ls == [] then "" else Concat(ls[..|ls| - 1]) + ls[|ls| - 1]
  }

  /** The suffix the code goes down to: a private suffix loses its first label, and its other dots. */
  function Chosen(suffix: string, icann: bool): string {
    if icann || |Split(suffix)| == 1 then suffix else Concat(Split(suffix)[1..])
  }

  /** The suffix the comment asks for. */
  function Wanted(suffix: string, icann: bool): string {
    if icann || |Split(suffix)| == 1 then suffix else Join(Split(suffix)[1..])
  }

  /** The labels of the domain in front of as many as tld has, each with what follows it, down to tld. */
  function Listed(domain: string, tld: string): seq<string>
  {
    var parts := Split(domain);
    var n := |parts| - (Dots(tld) + 1);
    if tld == domain then [domain]
    else if n < 0 then []
    else seq(n, i requires 0 <= i < n => Join(parts[i..n] + [tld]))
  }

  lemma {:induction false} DotsAppend(a: string, b: string)
    ensures Dots(a + b) == Dots(a) + Dots(b)
    decreases |a|
  {
    if a == "" {
      assert a + b == b;
    } else {
      assert (a + b)[1..] == a[1..] + b;
      DotsAppend(a[1..], b);
    }
  }

  lemma {:induction false} LabelsHaveNoDots(s: string)
    ensures forall i :: 0 <= i < |Split(s)| ==> Dots(Split(s)[i]) == 0
    decreases |s|
  {
    if s != "" {
      LabelsHaveNoDots(s[1..]);
      var t := Split(s[1..]);
      assert s[0] != '.' ==> ([s[0]] + t[0])[1..] == t[0];
    }
  }

  lemma {:induction false} ConcatHasNoDots(ls: seq<string>)
    requires forall i :: 0 <= i < |ls| ==> Dots(ls[i]) == 0
    ensures Dots(Concat(ls)) == 0
    decreases |ls|
  {
    if ls != [] {
      ConcatHasNoDots(ls[..|ls| - 1]);
      DotsAppend(Concat(ls[..|ls| - 1]), ls[|ls| - 1]);
    }
  }

  lemma ChosenIsShort(domain: string, suffix: string, icann: bool)
    requires Aligned(domain, suffix)
    ensures Dots(Chosen(suffix, icann)) + 1 <= |Split(domain)|
    ensures !icann && |Split(suffix)| > 1 ==> Dots(Chosen(suffix, icann)) == 0
  {
    AlignedIsTail(domain, suffix);
    DotsSeparate(suffix);
    LabelsHaveNoDots(suffix);
    ConcatHasNoDots(Split(suffix)[1..]);
  }

  /** The first loop of GetSubdomains. */
  method StripPrivate(suffix: string) returns (newdomain: string)
    ensures newdomain == Chosen(suffix, false)
  {
    newdomain := "";
    var parts := Split(suffix);
    if |parts| > 1 {
      var i := 1;
      while i < |parts|
        invariant 1 <= i <= |parts| && newdomain == Concat(parts[1..i])
      {
        assert parts[1..i + 1][..i - 1] == parts[1..i];
        newdomain := newdomain + parts[i];
        i := i + 1;
      }
      assert parts[1..i] == parts[1..];
    } else {
      newdomain := suffix;
    }
  }

  /** `suffix` and `icann` are the answer of the public suffix list. */
  method GetSubdomains(domain: string, suffix: string, icann: bool) returns (domains: seq<string>)
    requires Aligned(domain, suffix)
    ensures domains == Listed(domain, Chosen(suffix, icann))
  {
    var tld := suffix;
    if !icann {
      tld := StripPrivate(tld);
    }
    if tld == domain {
      return [domain];
    }
    var parts := Split(domain);
    var length := |parts|;
    var tldLen := Dots(tld) + 1;
    ChosenIsShort(domain, suffix, icann);
    var names := new string[length - tldLen + 1];
    names[length - tldLen] := tld;
    var i := length - tldLen - 1;
    while i >= 0
      invariant -1 <= i <= length - tldLen - 1
      invariant forall j :: i < j <= length - tldLen ==> names[j] == Join(parts[j..length - tldLen] + [tld])
    {
      assert (parts[i..length - tldLen] + [tld])[1..] == parts[i + 1..length - tldLen] + [tld];
      names[i] := parts[i] + "." + names[i + 1];
      i := i - 1;
    }
    return names[..length - tldLen];
  }

  // ----- when it does what its comment says -----

  lemma WantedIsAligned(domain: string, suffix: string, icann: bool)
    requires Aligned(domain, suffix)
    ensures Aligned(domain, Wanted(suffix, icann))
  {
    if !icann && |Split(suffix)| > 1 {
      AlignedIsTail(domain, suffix);
      var skip := |Split(domain)| - |Split(suffix)|;
      assert Split(domain)[skip..][1..] == Split(domain)[skip + 1..];
      TailIsAligned(domain, skip + 1);
    }
  }

  /** Down to a suffix that is label-aligned, the list is what it should be. */
  lemma ListedIsBelow(domain: string, tld: string)
    requires Aligned(domain, tld)
    ensures Listed(domain, tld) == Below(domain, tld)
  {
    AlignedIsTail(domain, tld);
    DotsSeparate(tld);
    var parts := Split(domain);
    var n := |parts| - |Split(tld)|;
    forall i | 0 <= i < n ensures Join(parts[i..n] + [tld]) == Tail(domain, i) {
      JoinAtDot(parts[i..n], [tld]);
      JoinAtDot(parts[i..n], parts[n..]);
      assert parts[i..] == parts[i..n] + parts[n..];
    }
  }

  function WantedAligned(domain: string, suffix: string, icann: bool): (w: string)
    requires Aligned(domain, suffix)
    ensures w == Wanted(suffix, icann) && Aligned(domain, w)
  {
    WantedIsAligned(domain, suffix, icann);
    Wanted(suffix, icann)
  }

  lemma {:induction false} SplitJoin(ls: seq<string>)
    requires ls != [] && forall i :: 0 <= i < |ls| ==> Dots(ls[i]) == 0
    ensures |Split(Join(ls))| == |ls|
    decreases |ls|
  {
    DotsSeparate(ls[0]);
    if |ls| > 1 {
      SplitAtDot(ls[0], Join(ls[1..]));
      SplitJoin(ls[1..]);
    }
  }

  lemma WantedLabels(suffix: string)
    requires |Split(suffix)| > 1
    ensures |Split(Wanted(suffix, false))| == |Split(suffix)| - 1
  {
    LabelsHaveNoDots(suffix);
    SplitJoin(Split(suffix)[1..]);
  }

  /** A private suffix of three or more labels gives a list of another length. */
  lemma LongPrivateSuffix(domain: string, suffix: string)
    requires Aligned(domain, suffix) && |Split(suffix)| > 2
    ensures Listed(domain, Chosen(suffix, false)) != Below(domain, WantedAligned(domain, suffix, false))
  {
    var wanted := WantedAligned(domain, suffix, false);
    var m := |Split(suffix)|;
    AlignedIsTail(domain, suffix);
    ChosenIsShort(domain, suffix, false);
    DotsSeparate(domain);
    assert Chosen(suffix, false) != domain;
    assert |Listed(domain, Chosen(suffix, false))| == |Split(domain)| - 1;
    TailsShrink(suffix, 0, 1);
    JoinSplit(suffix);
    assert Split(suffix)[0..] == Split(suffix);
    assert wanted != domain;
    WantedLabels(suffix);
  }

  /** The list is the one its comment promises if and only if the suffix is public or has at most two labels. */
  lemma RightIffPublicOrShort(domain: string, suffix: string, icann: bool)
    requires Aligned(domain, suffix)
    ensures Listed(domain, Chosen(suffix, icann)) == Below(domain, WantedAligned(domain, suffix, icann)) <==>
            icann || |Split(suffix)| <= 2
  {
    if icann || |Split(suffix)| <= 2 {
      if !icann && |Split(suffix)| == 2 {
        var last := Split(suffix)[1];
        assert Split(suffix)[1..] == [last];
        assert Concat([last]) == Concat([]) + last == last;
      }
      ListedIsBelow(domain, WantedAligned(domain, suffix, icann));
    } else {
      LongPrivateSuffix(domain, suffix);
    }
  }

  lemma {:induction false} LabelIsOne(s: string)
    requires Dots(s) == 0
    ensures Split(s) == [s]
    decreases |s|
  {
    if s != "" {
      LabelIsOne(s[1..]);
      assert s == [s[0]] + s[1..];
    }
  }

  function Four(a: string, b: string, c: string, d: string): string { a + "." + (b + "." + (c + "." + d)) }

  lemma SplitFour(a: string, b: string, c: string, d: string)
    requires Dots(a) == Dots(b) == Dots(c) == Dots(d) == 0
    ensures Split(Four(a, b, c, d)) == [a, b, c, d]
    ensures Split(b + "." + (c + "." + d)) == [b, c, d]
  {
    LabelIsOne(a);
    LabelIsOne(b);
    LabelIsOne(c);
    LabelIsOne(d);
    SplitAtDot(c, d);
    SplitAtDot(b, c + "." + d);
    SplitAtDot(a, b + "." + (c + "." + d));
  }

  lemma JoinFour(a: string, b: string, c: string, d: string)
    ensures Join([a, b, c, d]) == Four(a, b, c, d)
    ensures Join([b, c, d]) == b + "." + (c + "." + d) && Join([c, d]) == c + "." + d
  {
    assert Join([d]) == d;
    assert [c, d][1..] == [d] && [b, c, d][1..] == [c, d] && [a, b, c, d][1..] == [b, c, d];
    assert Join([c, d]) == c + "." + Join([d]);
    assert Join([b, c, d]) == b + "." + Join([c, d]);
    assert Join([a, b, c, d]) == a + "." + Join([b, c, d]);
  }

  lemma ChosenOfThree(b: string, c: string, d: string, suffix: string)
    requires Split(suffix) == [b, c, d] && Dots(c) == Dots(d) == 0
    ensures Chosen(suffix, false) == c + d && Wanted(suffix, false) == c + "." + d && Dots(c + d) == 0
  {
    assert [b, c, d][1..] == [c, d] && [c, d][..1] == [c] && [c][..0] == [];
    assert Concat([c]) == Concat([]) + c == c;
    assert Concat([c, d]) == Concat([c]) + d;
    DotsAppend(c, d);
    JoinFour("", b, c, d);
  }

  lemma BelowOfThree(a: string, b: string, c: string, d: string, domain: string, tld: string)
    requires Split(domain) == [a, b, c, d] && Split(tld) == [c, d] && Aligned(domain, tld)
    ensures Below(domain, tld) == [Four(a, b, c, d), b + "." + (c + "." + d)]
  {
    JoinFour(a, b, c, d);
    AlignedIsTail(domain, tld);
    assert [a, b, c, d][0..] == [a, b, c, d] && [a, b, c, d][1..] == [b, c, d];
    assert tld != domain;
  }

  lemma ListedOfThree(a: string, b: string, c: string, d: string, domain: string)
    requires Split(domain) == [a, b, c, d] && Dots(c + d) == 0
    ensures Listed(domain, c + d) == [Four(a, b, c, c + d), b + "." + (c + "." + (c + d)), c + "." + (c + d)]
  {
    var parts, e := Split(domain), c + d;
    JoinFour(a, b, c, e);
    DotsSeparate(domain);
    assert parts[0..3] + [e] == [a, b, c, e] && parts[1..3] + [e] == [b, c, e] && parts[2..3] + [e] == [c, e];
  }

  /** A name of four labels of which the last three are a private suffix: two names are wanted, three others come. */
  lemma DotsAreLost(a: string, b: string, c: string, d: string, domain: string, suffix: string)
    requires Dots(a) == Dots(b) == Dots(c) == Dots(d) == 0
    requires domain == Four(a, b, c, d) && suffix == b + "." + (c + "." + d)
    ensures Aligned(domain, suffix) && Below(domain, WantedAligned(domain, suffix, false)) == [domain, suffix]
    ensures Listed(domain, Chosen(suffix, false)) ==
            [Four(a, b, c, c + d), b + "." + (c + "." + (c + d)), c + "." + (c + d)]
  {
    SplitFour(a, b, c, d);
    ChosenOfThree(b, c, d, suffix);
    ListedOfThree(a, b, c, d, domain);
    LabelIsOne(c);
    LabelIsOne(d);
    SplitAtDot(c, d);
    BelowOfThree(a, b, c, d, domain, WantedAligned(domain, suffix, false));
  }

  /** w.a.b.c below the private suffix a.b.c: not w.a.b.c and a.b.c but w.a.b.bc, a.b.bc and b.bc. */
  lemma DotsAreLostHere(w: string, a: string, b: string, c: string)
    requires w == "w" && a == "a" && b == "b" && c == "c"
    ensures var domain, suffix := Four(w, a, b, c), a + "." + (b + "." + c);
            && domain == "w.a.b.c" && suffix == "a.b.c" && Aligned(domain, suffix)
            && Below(domain, WantedAligned(domain, suffix, false)) == [domain, suffix]
            && Listed(domain, Chosen(suffix, false)) ==
               [Four(w, a, b, b + c), a + "." + (b + "." + (b + c)), b + "." + (b + c)]
    ensures Four(w, a, b, b + c) == "w.a.b.bc"
    ensures a + "." + (b + "." + (b + c)) == "a.b.bc" && b + "." + (b + c) == "b.bc"
  {
    DotsAreLost(w, a, b, c, Four(w, a, b, c), a + "." + (b + "." + c));
  }
}

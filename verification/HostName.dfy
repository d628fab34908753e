/** Host names as internal/utils/net.go and internal/router/cache.go normalise them, and
    exactly where normalising twice differs from normalising once. */
module HostName {

  // unicode.IsSpace
  predicate IsSpace(c: char) {
    || '\t' <= c <= '\r' || c == ' ' || c == '\U{0085}' || c == '\U{00A0}' || c == '\U{1680}'
    || '\U{2000}' <= c <= '\U{200A}' || c == '\U{2028}' || c == '\U{2029}' || c == '\U{202F}'
    || c == '\U{205F}' || c == '\U{3000}'
  }

  function TrimLeft(s: string): string {
    if s != "" && IsSpace(s[0]) then TrimLeft(s[1..]) else s
  }

  function TrimRight(s: string): string {
    if s != "" && IsSpace(s[|s| - 1]) then TrimRight(s[..|s| - 1]) else s
  }

  // strings.TrimSpace
  function TrimSpace(s: string): string {
    TrimRight(TrimLeft(s))
  }

  // strings.TrimRight(s, ".")
  function TrimDots(s: string): string {
    if s != "" && s[|s| - 1] == '.' then TrimDots(s[..|s| - 1]) else s
  }

  function LowerChar(c: char): char {
    if 'A' <= c <= 'Z' then c + 32 as char else c
  }

  function ToLower(s: string): (r: string)
    ensures |r| == |s| && forall i :: 0 <= i < |s| ==> r[i] == LowerChar(s[i])
  {
    seq(|s|, i requires 0 <= i < |s| => LowerChar(s[i]))
  }

  function NormalizeHost(s: string): string {
    var t := TrimSpace(s);
    if t == "" then t else ToLower(TrimDots(t))
  }

  // normalizeRouteKey
  function RouteKey(dst: string): string {
    if NormalizeHost(dst) != "" then NormalizeHost(dst) else dst
  }

  // --- Facts about the pieces ---------------------------------------------------------------

  lemma TrimLeftIs(s: string)
    ensures TrimLeft(s) <= s || exists i :: 0 <= i <= |s| && TrimLeft(s) == s[i..]
    ensures TrimLeft(s) != "" ==> !IsSpace(TrimLeft(s)[0])
    ensures s != "" && !IsSpace(s[0]) ==> TrimLeft(s) == s
    ensures (forall i :: 0 <= i < |s| ==> !IsSpace(s[i])) ==> TrimLeft(s) == s
  {
  }

  lemma TrimRightIs(s: string)
    ensures TrimRight(s) <= s
    ensures TrimRight(s) != "" ==> !IsSpace(TrimRight(s)[|TrimRight(s)| - 1])
    ensures s != "" && !IsSpace(s[|s| - 1]) ==> TrimRight(s) == s
  {
  }

  lemma TrimDotsIs(s: string)
    ensures TrimDots(s) <= s
    ensures TrimDots(s) != "" ==> TrimDots(s)[|TrimDots(s)| - 1] != '.'
    ensures s != "" && s[|s| - 1] != '.' ==> TrimDots(s) == s
  {
  }

  lemma TrimSpaceIs(s: string)
    ensures var t := TrimSpace(s); t != "" ==> !IsSpace(t[0]) && !IsSpace(t[|t| - 1])
    ensures s != "" && !IsSpace(s[0]) && !IsSpace(s[|s| - 1]) ==> TrimSpace(s) == s
  {
    TrimLeftIs(s);
    TrimRightIs(TrimLeft(s));
  }

  // A text no trimming or folding can change.
  predicate Lowered(s: string) { forall i :: 0 <= i < |s| ==> !('A' <= s[i] <= 'Z') }

  lemma LowerIdentity(s: string)
    requires Lowered(s)
    ensures ToLower(s) == s
  {
  }

  /** What a non-empty normal form looks like: lower case, no space in front, no dot at the end. */
  lemma NormalForm(s: string)
    requires NormalizeHost(s) != ""
    ensures var n := NormalizeHost(s); Lowered(n) && !IsSpace(n[0]) && n[|n| - 1] != '.'
  {
    var t := TrimSpace(s);
    TrimSpaceIs(s);
    TrimDotsIs(t);
    var d := TrimDots(t);
    assert d[0] == t[0];
  }

  // --- What normalising takes away ----------------------------------------------------------

  predicate AllSpace(s: string) { forall i :: 0 <= i < |s| ==> IsSpace(s[i]) }
  predicate AllDots(s: string) { forall i :: 0 <= i < |s| ==> s[i] == '.' }

  /** A text in its parts: white space, a name, dots, white space.  The name has no white space in front and no dot
      at its end, nor white space there unless dots follow. */
  predicate Cut(s: string, lead: string, name: string, dots: string, trail: string) {
    && s == lead + (name + dots + trail) && AllSpace(lead) && AllDots(dots) && AllSpace(trail)
    && (name != "" ==> !IsSpace(name[0]) && name[|name| - 1] != '.')
    && (name != "" && dots == "" ==> !IsSpace(name[|name| - 1]))
    && (name == "" && dots == "" ==> trail == "")
  }

  // The letters of `s` in lower case, all else as it is.
  predicate IsLower(n: string, s: string) {
    && |n| == |s|
    && forall i :: 0 <= i < |s| ==>
         if 'A' <= s[i] <= 'Z' then n[i] as int - 'a' as int == s[i] as int - 'A' as int else n[i] == s[i]
  }

  lemma {:induction false} LeadOff(lead: string, x: string)
    requires AllSpace(lead) && (x != "" ==> !IsSpace(x[0]))
    ensures TrimLeft(lead + x) == x
  {
    if lead == "" {
      assert lead + x == x;
    } else {
      assert (lead + x)[1..] == lead[1..] + x;
      LeadOff(lead[1..], x);
    }
  }

  lemma {:induction false} TrailOff(x: string, trail: string)
    requires AllSpace(trail) && (x != "" ==> !IsSpace(x[|x| - 1]))
    ensures TrimRight(x + trail) == x
  {
    if trail == "" {
      assert x + trail == x;
    } else {
      assert (x + trail)[..|x + trail| - 1] == x + trail[..|trail| - 1];
      TrailOff(x, trail[..|trail| - 1]);
    }
  }

  lemma {:induction false} DotsOff(x: string, dots: string)
    requires AllDots(dots) && (x != "" ==> x[|x| - 1] != '.')
    ensures TrimDots(x + dots) == x
  {
    if dots == "" {
      assert x + dots == x;
    } else {
      assert (x + dots)[..|x + dots| - 1] == x + dots[..|dots| - 1];
      DotsOff(x, dots[..|dots| - 1]);
    }
  }

  /** Normalising takes the name out and lowers it. */
  lemma NormalizeHostIs(s: string, lead: string, name: string, dots: string, trail: string)
    requires Cut(s, lead, name, dots, trail)
    ensures IsLower(NormalizeHost(s), name)
  {
    LeadOff(lead, name + dots + trail);
    TrailOff(name + dots, trail);
    DotsOff(name, dots);
  }

  /** Every text has such parts. */
  lemma CutExists(s: string) returns (lead: string, name: string, dots: string, trail: string)
    ensures Cut(s, lead, name, dots, trail)
  {
    var x: string;
    lead, x := SplitLead(s);
    var y: string;
    y, trail := SplitTrail(x);
    name, dots := SplitDots(y);
    assert x == name + dots + trail;
    if name != "" { assert name[0] == x[0]; }
  }

  lemma {:induction false} SplitLead(s: string) returns (lead: string, x: string)
    ensures s == lead + x && AllSpace(lead) && (x != "" ==> !IsSpace(x[0]))
  {
    if s != "" && IsSpace(s[0]) {
      lead, x := SplitLead(s[1..]);
      lead := [s[0]] + lead;
    } else {
      lead, x := "", s;
    }
  }

  lemma {:induction false} SplitTrail(s: string) returns (x: string, trail: string)
    ensures s == x + trail && AllSpace(trail) && (x != "" ==> !IsSpace(x[|x| - 1]))
  {
    if s != "" && IsSpace(s[|s| - 1]) {
      x, trail := SplitTrail(s[..|s| - 1]);
      trail := trail + [s[|s| - 1]];
    } else {
      x, trail := s, "";
    }
  }

  lemma {:induction false} SplitDots(s: string) returns (x: string, dots: string)
    ensures s == x + dots && AllDots(dots) && (x != "" ==> x[|x| - 1] != '.')
  {
    if s != "" && s[|s| - 1] == '.' {
      x, dots := SplitDots(s[..|s| - 1]);
      dots := dots + [s[|s| - 1]];
    } else {
      x, dots := s, "";
    }
  }

  // The same character, or the same letter in the other case.
  predicate SameLetter(c: char, d: char) {
    c == d || ('A' <= c <= 'Z' && d as int == c as int + 32) || ('A' <= d <= 'Z' && c as int == d as int + 32)
  }

  predicate SameButCase(s: string, r: string) {
    |s| == |r| && forall i :: 0 <= i < |s| ==> SameLetter(s[i], r[i])
  }

  /** Hosts that differ in the case of letters only have one normal form. */
  lemma CaseBlind(s: string, r: string)
    requires SameButCase(s, r)
    ensures NormalizeHost(s) == NormalizeHost(r)
  {
    var lead, name, dots, trail := CutExists(s);
    var a, b, c := |lead|, |lead| + |name|, |lead| + |name| + |dots|;
    CutSlices(s, lead, name, dots, trail);
    CutRejoins(r, a, b, c);
    PartAlike(s, r, 0, a);
    PartAlike(s, r, a, b);
    PartAlike(s, r, b, c);
    PartAlike(s, r, c, |s|);
    CutLike(s, lead, name, dots, trail, r, r[0..a], r[a..b], r[b..c], r[c..|s|]);
    NormalizeHostIs(s, lead, name, dots, trail);
    NormalizeHostIs(r, r[0..a], r[a..b], r[b..c], r[c..|s|]);
    LowerAlike(NormalizeHost(s), name, NormalizeHost(r), r[a..b]);
  }

  lemma PartAlike(s: string, r: string, a: nat, b: nat)
    requires SameButCase(s, r) && a <= b <= |s|
    ensures SameButCase(s[a..b], r[a..b])
  {
    forall i | 0 <= i < b - a ensures SameLetter(s[a..b][i], r[a..b][i]) { assert SameLetter(s[a + i], r[a + i]); }
  }

  lemma CutSlices(s: string, lead: string, name: string, dots: string, trail: string)
    requires s == lead + (name + dots + trail)
    ensures s[0..|lead|] == lead && s[|lead|..|lead| + |name|] == name
    ensures s[|lead| + |name|..|lead| + |name| + |dots|] == dots && s[|lead| + |name| + |dots|..|s|] == trail
  {
  }

  lemma LowerAlike(n: string, x: string, m: string, y: string)
    requires IsLower(n, x) && IsLower(m, y) && SameButCase(x, y)
    ensures n == m
  {
    forall i | 0 <= i < |n| ensures n[i] == m[i] { assert SameLetter(x[i], y[i]); }
  }

  lemma CutLike(s: string, lead: string, name: string, dots: string, trail: string,
                r: string, lead': string, name': string, dots': string, trail': string)
    requires Cut(s, lead, name, dots, trail) && r == lead' + (name' + dots' + trail')
    requires SameButCase(lead, lead') && SameButCase(name, name')
    requires SameButCase(dots, dots') && SameButCase(trail, trail')
    ensures Cut(r, lead', name', dots', trail')
  {
    MarksAlike(lead, lead');
    MarksAlike(name, name');
    MarksAlike(dots, dots');
    MarksAlike(trail, trail');
  }

  // White space and dots are no letters.
  lemma MarksAlike(x: string, y: string)
    requires SameButCase(x, y)
    ensures AllSpace(x) ==> AllSpace(y)
    ensures AllDots(x) ==> AllDots(y)
    ensures x != "" ==> IsSpace(y[0]) == IsSpace(x[0]) && IsSpace(y[|y| - 1]) == IsSpace(x[|x| - 1])
    ensures x != "" ==> (y[|y| - 1] == '.') == (x[|x| - 1] == '.')
  {
    assert forall i :: 0 <= i < |x| ==> SameLetter(x[i], y[i]);
  }

  lemma CutRejoins(r: string, a: nat, b: nat, c: nat)
    requires a <= b <= c <= |r|
    ensures r == r[0..a] + (r[a..b] + r[b..c] + r[c..|r|])
  {
  }

  // Dots and then white space, to the end.
  predicate DotsThenSpace(s: string) {
    && (forall i :: 0 <= i < |s| ==> s[i] == '.' || IsSpace(s[i]))
    && (forall i, j :: 0 <= i < j < |s| && IsSpace(s[i]) ==> IsSpace(s[j]))
  }

  /** A host settles when what is left of it after trimming white space and then trailing dots does not end
      in white space again, or is nothing but dots and white space. */
  predicate Settles(dst: string) {
    var d := TrimDots(TrimSpace(dst));
    d == "" || !IsSpace(d[|d| - 1]) || DotsThenSpace(d)
  }

  // Lower-casing moves neither dots nor white space.
  lemma LowerKeeps(s: string)
    ensures forall i :: 0 <= i < |s| ==> IsSpace(ToLower(s)[i]) == IsSpace(s[i])
    ensures forall i :: 0 <= i < |s| ==> (ToLower(s)[i] == '.') == (s[i] == '.')
    ensures DotsThenSpace(ToLower(s)) == DotsThenSpace(s)
  {
  }

  // A text that does not begin with white space normalises to nothing exactly if it is dots, then white space.
  lemma NormalisesToNothing(n: string)
    requires n != "" && !IsSpace(n[0])
    ensures NormalizeHost(n) == "" <==> DotsThenSpace(n)
  {
    TrimLeftIs(n);
    TrimRightSplits(n);
    AllDotsIff(TrimSpace(n));
    DotsInFront(n, TrimSpace(n));
  }

  lemma DotsInFront(n: string, t: string)
    requires t <= n && (forall i :: |t| <= i < |n| ==> IsSpace(n[i])) && (t != "" ==> !IsSpace(t[|t| - 1]))
    ensures (forall i :: 0 <= i < |t| ==> t[i] == '.') <==> DotsThenSpace(n)
  {
    assert forall i :: 0 <= i < |t| ==> t[i] == n[i];
  }

  lemma {:induction false} TrimRightSplits(s: string)
    ensures TrimRight(s) <= s && forall i :: |TrimRight(s)| <= i < |s| ==> IsSpace(s[i])
    ensures TrimRight(s) != "" ==> !IsSpace(TrimRight(s)[|TrimRight(s)| - 1])
  {
    if s != "" && IsSpace(s[|s| - 1]) { TrimRightSplits(s[..|s| - 1]); }
  }

  lemma {:induction false} AllDotsIff(s: string)
    ensures TrimDots(s) == "" <==> forall i :: 0 <= i < |s| ==> s[i] == '.'
  {
    if s != "" && s[|s| - 1] == '.' { AllDotsIff(s[..|s| - 1]); }
  }

  lemma SettlesByNormalForm(dst: string)
    ensures var n := NormalizeHost(dst);
            Settles(dst) <==> n == "" || !IsSpace(n[|n| - 1]) || NormalizeHost(n) == ""
  {
    var d, n := TrimDots(TrimSpace(dst)), NormalizeHost(dst);
    LowerKeeps(d);
    if n != "" {
      assert n == ToLower(d);
      NormalForm(dst);
      NormalisesToNothing(n);
    }
  }

  lemma RouteKeyIdempotentIff(dst: string)
    ensures RouteKey(RouteKey(dst)) == RouteKey(dst) <==> Settles(dst)
  {
    var n := NormalizeHost(dst);
    SettlesByNormalForm(dst);
    if n != "" {
      NormalForm(dst);
      TrimSpaceIs(n);
      TrimDotsIs(TrimSpace(n));
      if !IsSpace(n[|n| - 1]) {
        TrimDotsIs(n);
        LowerIdentity(n);
      } else if NormalizeHost(n) != "" {
        EndsWithoutSpace(n);
      }
    }
  }

  lemma EndsWithoutSpace(n: string)
    requires n != "" && IsSpace(n[|n| - 1]) && NormalizeHost(n) != ""
    ensures NormalizeHost(n) != n
  {
    TrimLeftIs(n);
    TrimRightIs(TrimLeft(n));
    TrimSpaceIs(n);
    TrimDotsIs(TrimSpace(n));
    var t := TrimSpace(n);
    assert |NormalizeHost(n)| <= |t|;
  }

  /** Hosts without inner whitespace settle. */
  lemma NoInnerSpaceSettles(dst: string)
    requires forall i :: 0 <= i < |TrimSpace(dst)| ==> !IsSpace(TrimSpace(dst)[i])
    ensures Settles(dst)
  {
    TrimDotsIs(TrimSpace(dst));
    var n := NormalizeHost(dst);
    if n != "" {
      assert n[|n| - 1] == LowerChar(TrimSpace(dst)[|n| - 1]);
    }
  }

  /** For a host that does not settle there is another whose second normal form is its first. */
  lemma WarmHost(dst: string)
    requires !Settles(dst)
    ensures var n := NormalizeHost(dst);
            RouteKey(RouteKey(n + ". .")) == n && RouteKey(dst) == n && RouteKey(n) != n
  {
    RouteKeyIdempotentIff(dst);
    SettlesByNormalForm(dst);
    NormalForm(dst);
    WarmText(NormalizeHost(dst));
  }

  lemma WarmText(n: string)
    requires n != "" && Lowered(n) && !IsSpace(n[0]) && n[|n| - 1] != '.'
    ensures NormalizeHost(n + ". .") == n + ". " && NormalizeHost(n + ". ") == n
  {
    DotOff(n + ". ");
    assert n + ". ." == n + ". " + ".";
    var d := n + ".";
    assert n + ". " == d + " " && d[..|n|] == n;
    TrimLeftIs(d + " ");
    TrimOne(d);
    LowerIdentity(n);
  }

  lemma DotOff(m: string)
    requires m != "" && Lowered(m) && !IsSpace(m[0]) && m[|m| - 1] != '.'
    ensures NormalizeHost(m + ".") == m
  {
    TrimSpaceIs(m + ".");
    assert (m + ".")[..|m|] == m;
    TrimDotsIs(m);
    LowerIdentity(m);
  }

  // One space, then one dot, off the end.
  lemma TrimOne(d: string)
    requires d != "" && d[|d| - 1] == '.' && (|d| == 1 || d[|d| - 2] != '.')
    ensures TrimRight(d + " ") == d && TrimDots(d) == d[..|d| - 1]
  {
    assert (d + " ")[..|d|] == d;
    TrimRightIs(d);
    TrimDotsIs(d[..|d| - 1]);
  }
}

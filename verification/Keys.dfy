/** When two variable names mean the same slot. */
module Keys {
  import opened RegistryState

  // ---- what callers mean by one variable ----

  /** The ASCII white space of str.strip(). */
  predicate Blank(ch: char) { ch in " \t\n\r\U{0b}\U{0c}\U{1c}\U{1d}\U{1e}\U{1f}" }

  predicate AllBlank(s: string) { forall i :: 0 <= i < |s| ==> Blank(s[i]) }

  /** s is core with nothing but white space around it, and core begins and ends with something else. */
  ghost predicate Surrounds(s: string, core: string) {
    && (exists before, after :: AllBlank(before) && AllBlank(after) && s == before + core + after)
    && (core != [] ==> !Blank(core[0]) && !Blank(core[|core| - 1]))
  }

  ghost predicate SameButSpace(s: string, t: string) { exists core :: Surrounds(s, core) && Surrounds(t, core) }

  predicate SameLetter(x: char, y: char) {
    || x == y
    || ('a' <= x <= 'z' && x as int - 32 == y as int)
    || ('a' <= y <= 'z' && y as int - 32 == x as int)
  }

  predicate SameButCase(s: string, t: string) {
    |s| == |t| && forall i :: 0 <= i < |s| ==> SameLetter(s[i], t[i])
  }

  ghost predicate SameButCaseAndSpace(s: string, t: string) {
    exists core, other :: Surrounds(s, core) && Surrounds(t, other) && SameButCase(core, other)
  }

  // ---- stripping ----

  predicate AllSpace(s: string) { forall i :: 0 <= i < |s| ==> IsSpace(s[i]) }

  lemma BlankIsSpace(ch: char)
    ensures Blank(ch) <==> IsSpace(ch)
  {}

  lemma AllBlankIsSpace(s: string)
    ensures AllBlank(s) <==> AllSpace(s)
  {
    forall i | 0 <= i < |s| ensures Blank(s[i]) <==> IsSpace(s[i]) {
      BlankIsSpace(s[i]);
    }
  }

  lemma {:induction false} StripLeftSkips(w: string, s: string)
    requires AllSpace(w)
    ensures StripLeft(w + s) == StripLeft(s)
    decreases |w|
  {
    if w == [] {
      assert w + s == s;
    } else {
      assert (w + s)[1..] == w[1..] + s;
      StripLeftSkips(w[1..], s);
    }
  }

  lemma {:induction false} StripRightSkips(s: string, w: string)
    requires AllSpace(w)
    ensures StripRight(s + w) == StripRight(s)
    decreases |w|
  {
    if w == [] {
      assert s + w == s;
    } else {
      assert (s + w)[..|s + w| - 1] == s + w[..|w| - 1];
      StripRightSkips(s, w[..|w| - 1]);
    }
  }

  lemma {:induction false} StripIgnoresTail(s: string, w: string)
    requires AllSpace(w)
    ensures Strip(s + w) == Strip(s)
    decreases |s|
  {
    if s == [] {
      StripLeftSkips(w, []);
      assert w + [] == w == s + w;
    } else if IsSpace(s[0]) {
      assert (s + w)[1..] == s[1..] + w;
      StripIgnoresTail(s[1..], w);
    } else {
      StripRightSkips(s, w);
    }
  }

  lemma StripIgnoresSpace(before: string, s: string, after: string)
    requires AllSpace(before) && AllSpace(after)
    ensures Strip(before + s + after) == Strip(s)
  {
    assert before + s + after == before + (s + after);
    StripLeftSkips(before, s + after);
    StripIgnoresTail(s, after);
  }

  lemma {:induction false} StripLeftCuts(s: string)
    ensures StripLeft(s) != [] ==> !IsSpace(StripLeft(s)[0])
    ensures |StripLeft(s)| <= |s| && AllSpace(s[..|s| - |StripLeft(s)|]) && s[|s| - |StripLeft(s)|..] == StripLeft(s)
  {
    if s != [] && IsSpace(s[0]) {
      StripLeftCuts(s[1..]);
      var n := |s| - |StripLeft(s)|;
      assert s[..n] == [s[0]] + s[1..][..n - 1];
    }
  }

  lemma {:induction false} StripRightCuts(s: string)
    ensures StripRight(s) != [] ==> !IsSpace(StripRight(s)[|StripRight(s)| - 1])
    ensures StripRight(s) <= s && AllSpace(s[|StripRight(s)|..])
  {
    if s != [] && IsSpace(s[|s| - 1]) {
      StripRightCuts(s[..|s| - 1]);
      var n := |StripRight(s)|;
      assert s[n..] == s[..|s| - 1][n..] + [s[|s| - 1]];
    }
  }

  /** Stripping takes off exactly the white space around a string. */
  lemma StripSurrounds(s: string)
    ensures Surrounds(s, Strip(s))
  {
    var left, core := StripLeft(s), Strip(s);
    StripLeftCuts(s);
    StripRightCuts(left);
    var before, after := s[..|s| - |left|], left[|core|..];
    AllBlankIsSpace(before);
    AllBlankIsSpace(after);
    assert left == core + after;
    assert s == before + core + after;
    if core != [] {
      assert core[0] == left[0];
      BlankIsSpace(core[0]);
      BlankIsSpace(core[|core| - 1]);
    }
  }

  lemma TightIsStripped(core: string)
    requires core != [] ==> !Blank(core[0]) && !Blank(core[|core| - 1])
    ensures Strip(core) == core
  {
    if core != [] {
      BlankIsSpace(core[0]);
      BlankIsSpace(core[|core| - 1]);
    }
  }

  /** There is no other way to take it off. */
  lemma SurroundsIsStrip(s: string, core: string)
    requires Surrounds(s, core)
    ensures core == Strip(s)
  {
    var before, after :| AllBlank(before) && AllBlank(after) && s == before + core + after;
    AllBlankIsSpace(before);
    AllBlankIsSpace(after);
    StripIgnoresSpace(before, core, after);
    TightIsStripped(core);
  }

  lemma UpperIsCase(s: string, t: string)
    ensures Upper(s) == Upper(t) <==> SameButCase(s, t)
  {
    if Upper(s) == Upper(t) {
      assert |Upper(s)| == |Upper(t)|;
      forall i | 0 <= i < |s| ensures SameLetter(s[i], t[i]) {
        assert Upper(s)[i] == Upper(t)[i];
      }
    }
  }

  lemma UnitsAgree(u: string, v: string)
    ensures Strip(u) == Strip(v) <==> SameButSpace(u, v)
  {
    StripSurrounds(u);
    StripSurrounds(v);
    if core :| Surrounds(u, core) && Surrounds(v, core) {
      SurroundsIsStrip(u, core);
      SurroundsIsStrip(v, core);
    }
  }

  lemma NamesAgree(n: string, m: string)
    ensures Upper(Strip(n)) == Upper(Strip(m)) <==> SameButCaseAndSpace(n, m)
  {
    StripSurrounds(n);
    StripSurrounds(m);
    UpperIsCase(Strip(n), Strip(m));
    if core, other :| Surrounds(n, core) && Surrounds(m, other) && SameButCase(core, other) {
      SurroundsIsStrip(n, core);
      SurroundsIsStrip(m, other);
    }
  }

  /** Two variables share a slot if and only if their datatypes are equal, their units are the same up to the
      white space around them, and their names the same up to that and ASCII case. */
  lemma SameSlotExactly(n: string, u: string, d: int, m: string, v: string, e: int)
    ensures KeyOf(n, u, d) == KeyOf(m, v, e) <==> d == e && SameButSpace(u, v) && SameButCaseAndSpace(n, m)
  {
    UnitsAgree(u, v);
    NamesAgree(n, m);
  }
}

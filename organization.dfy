/**
 * The slug of a new organization: its name lower-cased, with every run of
 * whitespace replaced by one hyphen (a global `\s+` to `-` replacement).
 */
module Organization {
  import opened Common

  /** A character matched by `\s` in a JavaScript regular expression. */
  predicate IsSpace(c: char) {
    var n := c as int;
    || (0x09 <= n <= 0x0D) || n == 0x20 || n == 0xA0 || n == 0x1680
    || (0x2000 <= n <= 0x200A) || n == 0x2028 || n == 0x2029 || n == 0x202F
    || n == 0x205F || n == 0x3000 || n == 0xFEFF
  }

  predicate NoSpace(s: string) {
    forall i :: 0 <= i < |s| ==> !IsSpace(s[i])
  }

  predicate AllSpace(s: string) {
    forall i :: 0 <= i < |s| ==> IsSpace(s[i])
  }

  /**
   * The replacement scanned left to right; `inRun` says whether the
   * previous character was whitespace, in which case a further whitespace
   * character belongs to the same run and adds nothing.
   */
  function Collapse(s: string, inRun: bool): (r: string)
    decreases |s|
  {
    if s == [] then []
    else if IsSpace(s[0]) then (if inRun then Collapse(s[1..], true) else "-" + Collapse(s[1..], true))
    else [s[0]] + Collapse(s[1..], false)
  }

  /** Whether a scan that began with `inRun` ends inside a whitespace run. */
  function EndsInRun(s: string, inRun: bool): bool {
    if s == [] then inRun else IsSpace(s[|s| - 1])
  }

  /** The slug of an organization name. */
  function Slug(name: string): (slug: string)
    ensures NoSpace(slug)
    ensures |slug| <= |name|
  {
    CollapseNoSpace(Lower(name), false);
    Collapse(Lower(name), false)
  }

  // ---------------------------------------------------------------------
  // The replacement

  lemma Assoc(x: string, p: string, q: string)
    ensures x + (p + q) == (x + p) + q
  {
  }

  /** No whitespace survives, and the text never grows. */
  lemma {:induction false} CollapseNoSpace(s: string, inRun: bool)
    ensures NoSpace(Collapse(s, inRun))
    ensures |Collapse(s, inRun)| <= |s|
    decreases |s|
  {
    if s != [] {
      CollapseNoSpace(s[1..], IsSpace(s[0]));
    }
  }

  /** A string without whitespace is left as it is. */
  lemma {:induction false} CollapseNoSpaceIdentity(s: string, inRun: bool)
    requires NoSpace(s)
    ensures Collapse(s, inRun) == s
    decreases |s|
  {
    if s != [] {
      assert !IsSpace(s[0]);
      CollapseNoSpaceIdentity(s[1..], false);
      assert s == [s[0]] + s[1..];
    }
  }

  /** The scan of a concatenation: the second part continues in the state the first left. */
  lemma {:induction false} CollapseAppend(a: string, c: string, inRun: bool)
    ensures Collapse(a + c, inRun) == Collapse(a, inRun) + Collapse(c, EndsInRun(a, inRun))
    decreases |a|
  {
    if a == [] {
      assert a + c == c;
    } else {
      var u := a + c;
      assert u[0] == a[0];
      assert u[1..] == a[1..] + c;
      var next := IsSpace(a[0]);
      CollapseAppend(a[1..], c, next);
      assert EndsInRun(a[1..], next) == EndsInRun(a, inRun);
      var head := if next then (if inRun then "" else "-") else [a[0]];
      assert Collapse(u, inRun) == head + Collapse(a[1..] + c, next);
      assert Collapse(a, inRun) == head + Collapse(a[1..], next);
      Assoc(head, Collapse(a[1..], next), Collapse(c, EndsInRun(a, inRun)));
    }
  }

  /** A block of whitespace yields one hyphen if it opens a run, nothing if it continues one. */
  lemma {:induction false} CollapseSpaces(w: string, inRun: bool)
    requires w != [] && AllSpace(w)
    ensures Collapse(w, inRun) == if inRun then [] else "-"
    decreases |w|
  {
    if |w| == 1 {
      assert w[1..] == [];
    } else {
      assert AllSpace(w[1..]) by {
        forall i | 0 <= i < |w[1..]| ensures IsSpace(w[1..][i]) {
          assert w[1..][i] == w[i + 1];
        }
      }
      CollapseSpaces(w[1..], true);
    }
  }

  /**
   * A maximal run of whitespace between two parts becomes a single hyphen
   * between the parts' own replacements.
   */
  lemma CollapseRun(a: string, w: string, b: string)
    requires w != [] && AllSpace(w)
    requires a == [] || !IsSpace(a[|a| - 1])
    requires b == [] || !IsSpace(b[0])
    ensures Collapse(a + w + b, false) == Collapse(a, false) + "-" + Collapse(b, false)
  {
    assert a + w + b == a + (w + b);
    CollapseAppend(a, w + b, false);
    assert !EndsInRun(a, false);
    CollapseAppend(w, b, false);
    assert EndsInRun(w, false);
    CollapseSpaces(w, false);
    assert Collapse(b, true) == Collapse(b, false);
    Assoc(Collapse(a, false), "-", Collapse(b, false));
  }

  // ---------------------------------------------------------------------
  // What the slug keeps

  /** The characters other than whitespace and hyphens, in order. */
  function Letters(s: string): (r: string)
    decreases |s|
  {
    if s == [] then []
    else if IsSpace(s[0]) || s[0] == '-' then Letters(s[1..])
    else [s[0]] + Letters(s[1..])
  }

  /** The replacement only turns whitespace into hyphens: every other character stays, in order. */
  lemma {:induction false} CollapseKeepsLetters(s: string, inRun: bool)
    ensures Letters(Collapse(s, inRun)) == Letters(s)
    decreases |s|
  {
    if s != [] {
      CollapseKeepsLetters(s[1..], IsSpace(s[0]));
      if IsSpace(s[0]) && !inRun {
        var t := "-" + Collapse(s[1..], true);
        assert t[0] == '-' && t[1..] == Collapse(s[1..], true);
      }
    }
  }

  /** Apart from its hyphens, the slug is the lower-cased name with its whitespace left out. */
  lemma SlugKeepsLetters(name: string)
    ensures Letters(Slug(name)) == Letters(Lower(name))
  {
    CollapseKeepsLetters(Lower(name), false);
  }

  /** No character of `s` changes under lower-casing. */
  predicate IsLower(s: string) {
    forall i :: 0 <= i < |s| ==> LowerChar(s[i]) == s[i]
  }

  lemma {:induction false} CollapseKeepsLower(s: string, inRun: bool)
    requires IsLower(s)
    ensures IsLower(Collapse(s, inRun))
    decreases |s|
  {
    if s != [] {
      assert IsLower(s[1..]) by {
        forall i | 0 <= i < |s[1..]| ensures LowerChar(s[1..][i]) == s[1..][i] {
          assert s[1..][i] == s[i + 1];
        }
      }
      CollapseKeepsLower(s[1..], IsSpace(s[0]));
    }
  }

  /** Deriving a slug from a slug gives it back unchanged. */
  lemma SlugIdempotent(name: string)
    ensures Slug(Slug(name)) == Slug(name)
  {
    var slug := Slug(name);
    CollapseKeepsLower(Lower(name), false);
    assert Lower(slug) == slug;
    CollapseNoSpaceIdentity(slug, false);
  }

  /** A name whose parts are separated by single or repeated spaces gets one hyphen per gap. */
  lemma SlugOfSpacedName(a: string, w: string, b: string)
    requires w != [] && AllSpace(w)
    requires a == [] || !IsSpace(a[|a| - 1])
    requires b == [] || !IsSpace(b[0])
    ensures Slug(a + w + b) == Slug(a) + "-" + Slug(b)
  {
    var la, lw, lb := Lower(a), Lower(w), Lower(b);
    assert Lower(a + w + b) == la + lw + lb;
    assert lw == w by {
      forall i | 0 <= i < |w| ensures lw[i] == w[i] {
        assert IsSpace(w[i]);
      }
    }
    assert la == [] || la[|la| - 1] == a[|a| - 1] || !IsSpace(la[|la| - 1]);
    assert lb == [] || lb[0] == b[0] || !IsSpace(lb[0]);
    CollapseRun(la, lw, lb);
  }
}

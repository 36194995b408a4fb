/** The slug derivation shared by the product and category save hooks:
    lower-case the name, replace every run of characters outside `[a-z0-9]`
    by one `-`, then strip one leading and one trailing `-`. */
module Slug {
  import opened Text

  /** `replace(/[^a-z0-9]+/g, '-')`, scanning left to right; `inRun` says
      whether the previous character was already part of a replaced run. */
  function CollapseFrom(s: string, inRun: bool): string
  {
    if s == [] then []
    else if IsAlnum(s[0]) then [s[0]] + CollapseFrom(s[1..], false)
    else if inRun then CollapseFrom(s[1..], true)
    else ['-'] + CollapseFrom(s[1..], true)
  }

  function Collapse(s: string): string
  {
    CollapseFrom(s, false)
  }

  /** `replace(/(^-|-$)/g, '')`: one leading and one trailing hyphen go;
      a lone `-` is consumed by the first alternative only. */
  function TrimEdges(t: string): string
  {
    var a := if |t| > 0 && t[0] == '-' then t[1..] else t;
    if |a| > 0 && a[|a| - 1] == '-' then a[..|a| - 1] else a
  }

  /** The slug of a name. */
  function Slugify(name: string): string
  {
    TrimEdges(Collapse(Lower(name)))
  }

  /** Only characters of `[a-z0-9-]`. */
  predicate SlugChars(t: string)
  {
    forall i :: 0 <= i < |t| ==> IsAlnum(t[i]) || t[i] == '-'
  }

  /** No two adjacent hyphens. */
  predicate NoDoubleHyphen(t: string)
  {
    forall i :: 0 <= i < |t| - 1 ==> !(t[i] == '-' && t[i + 1] == '-')
  }

  /** Neither first nor last character is a hyphen. */
  predicate NoEdgeHyphen(t: string)
  {
    |t| > 0 ==> t[0] != '-' && t[|t| - 1] != '-'
  }

  /** The characters of `[a-z0-9]` of `s`, in order. */
  function KeepAlnum(s: string): string
  {
    if s == [] then [] else (if IsAlnum(s[0]) then [s[0]] else []) + KeepAlnum(s[1..])
  }

  /** `s` with every hyphen removed. */
  function DropHyphens(s: string): string
  {
    if s == [] then [] else (if s[0] == '-' then [] else [s[0]]) + DropHyphens(s[1..])
  }

  lemma {:induction false} DropHyphensAppend(x: string, y: string)
    ensures DropHyphens(x + y) == DropHyphens(x) + DropHyphens(y)
  {
    if x != [] {
      assert (x + y)[1..] == x[1..] + y;
      DropHyphensAppend(x[1..], y);
    } else {
      assert x + y == y;
    }
  }

  /** What the collapsing pass produces, by induction over the name. */
  lemma {:induction false} CollapseShape(s: string, inRun: bool)
    ensures SlugChars(CollapseFrom(s, inRun))
    ensures NoDoubleHyphen(CollapseFrom(s, inRun))
    ensures inRun ==> CollapseFrom(s, inRun) == [] || CollapseFrom(s, inRun)[0] != '-'
    ensures DropHyphens(CollapseFrom(s, inRun)) == KeepAlnum(s)
  {
    if s != [] {
      if IsAlnum(s[0]) {
        CollapseShape(s[1..], false);
        var r := CollapseFrom(s[1..], false);
        DropHyphensAppend([s[0]], r);
      } else if inRun {
        CollapseShape(s[1..], true);
      } else {
        CollapseShape(s[1..], true);
        var r := CollapseFrom(s[1..], true);
        DropHyphensAppend(['-'], r);
      }
    }
  }

  /** Dropping a leading hyphen keeps the shape and the non-hyphens. */
  lemma DropFirstHyphen(t: string)
    requires SlugChars(t) && NoDoubleHyphen(t) && |t| > 0 && t[0] == '-'
    ensures SlugChars(t[1..]) && NoDoubleHyphen(t[1..])
    ensures t[1..] == [] || t[1..][0] != '-'
    ensures DropHyphens(t[1..]) == DropHyphens(t)
  {
    assert t == ['-'] + t[1..];
    DropHyphensAppend(['-'], t[1..]);
  }

  /** Dropping a trailing hyphen keeps the shape and the non-hyphens. */
  lemma DropLastHyphen(a: string)
    requires SlugChars(a) && NoDoubleHyphen(a) && |a| > 0 && a[0] != '-' && a[|a| - 1] == '-'
    ensures SlugChars(a[..|a| - 1]) && NoDoubleHyphen(a[..|a| - 1]) && NoEdgeHyphen(a[..|a| - 1])
    ensures DropHyphens(a[..|a| - 1]) == DropHyphens(a)
  {
    var b := a[..|a| - 1];
    assert a == b + ['-'];
    DropHyphensAppend(b, ['-']);
    assert DropHyphens(['-']) == [];
    if |b| > 0 {
      assert b[|b| - 1] == a[|a| - 2];
    }
  }

  /** Trimming a collapsed string removes its edge hyphens and nothing else. */
  lemma TrimShape(t: string)
    requires SlugChars(t) && NoDoubleHyphen(t)
    ensures SlugChars(TrimEdges(t)) && NoDoubleHyphen(TrimEdges(t)) && NoEdgeHyphen(TrimEdges(t))
    ensures DropHyphens(TrimEdges(t)) == DropHyphens(t)
  {
    var a := if |t| > 0 && t[0] == '-' then t[1..] else t;
    if |t| > 0 && t[0] == '-' {
      DropFirstHyphen(t);
    }
    if |a| > 0 && a[|a| - 1] == '-' {
      DropLastHyphen(a);
    }
  }

  /** The slug uses only `[a-z0-9-]`, has no edge hyphen and no `--`, and
      with its hyphens removed it is the name's letters and digits. */
  lemma SlugShape(name: string)
    ensures SlugChars(Slugify(name))
    ensures NoEdgeHyphen(Slugify(name))
    ensures NoDoubleHyphen(Slugify(name))
    ensures DropHyphens(Slugify(name)) == KeepAlnum(Lower(name))
  {
    CollapseShape(Lower(name), false);
    TrimShape(Collapse(Lower(name)));
  }

  /** A well-formed slug survives the collapsing pass unchanged. */
  lemma {:induction false} CollapseFixes(t: string, inRun: bool)
    requires SlugChars(t) && NoDoubleHyphen(t)
    requires inRun ==> t == [] || t[0] != '-'
    ensures CollapseFrom(t, inRun) == t
  {
    if t != [] {
      assert SlugChars(t[1..]) && NoDoubleHyphen(t[1..]);
      if IsAlnum(t[0]) {
        CollapseFixes(t[1..], false);
      } else {
        assert |t| > 1 ==> t[1] != '-';
        CollapseFixes(t[1..], true);
      }
    }
  }

  /** Slugging a slug gives the same slug. */
  lemma SlugIdempotent(name: string)
    ensures Slugify(Slugify(name)) == Slugify(name)
  {
    var r := Slugify(name);
    SlugShape(name);
    LowerFixesSlugChars(r);
    CollapseFixes(r, false);
  }

  /** A name without letters or digits gets the empty slug. */
  lemma EmptySlug(name: string)
    requires KeepAlnum(Lower(name)) == []
    ensures Slugify(name) == []
  {
    SlugShape(name);
  }

  /** A leading block of letters and digits is copied as it is. */
  lemma {:induction false} CollapseAlnumPrefix(a: string, rest: string)
    requires forall i :: 0 <= i < |a| ==> IsAlnum(a[i])
    ensures CollapseFrom(a + rest, false) == a + CollapseFrom(rest, false)
  {
    if a == [] {
      assert a + rest == rest;
    } else {
      assert (a + rest)[1..] == a[1..] + rest;
      CollapseAlnumPrefix(a[1..], rest);
    }
  }
}

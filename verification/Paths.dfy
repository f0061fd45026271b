/** Slash-separated names, as the artifact keys and `path.Clean` see them. */
module Paths {
  import opened Text

  predicate NoSlash(s: string) {
    forall i | 0 <= i < |s| :: s[i] != '/'
  }

  /** The components of a name; empty ones included. */
  function Split(s: string): (parts: seq<string>)
    ensures |parts| > 0
  {
    if s == "" then [""]
    else
      var rest := Split(s[1..]);
      if s[0] == '/' then [""] + rest else [[s[0]] + rest[0]] + rest[1..]
  }

  function Join(parts: seq<string>): string
    requires |parts| > 0
  {
    if |parts| == 1 then parts[0] else parts[0] + "/" + Join(parts[1..])
  }

  lemma {:induction false} JoinSplit(s: string)
    ensures Join(Split(s)) == s
  {
    if s != "" {
      JoinSplit(s[1..]);
      var rest := Split(s[1..]);
      assert s == [s[0]] + s[1..];
      if s[0] == '/' {
        JoinCons("", rest);
      } else if |rest| > 1 {
        assert rest == [rest[0]] + rest[1..];
        JoinCons(rest[0], rest[1..]);
        JoinCons([s[0]] + rest[0], rest[1..]);
        Regrouped([s[0]], rest[0], "/", Join(rest[1..]));
      }
    }
  }

  lemma JoinCons(part: string, more: seq<string>)
    requires more != []
    ensures Join([part] + more) == part + "/" + Join(more)
  {
    assert ([part] + more)[1..] == more;
  }

  lemma Regrouped(a: string, b: string, c: string, d: string)
    ensures a + b + c + d == a + (b + c + d)
  {
  }

  lemma {:induction false} SplitInjective(a: string, b: string)
    requires Split(a) == Split(b)
    ensures a == b
  {
    JoinSplit(a);
    JoinSplit(b);
  }

  lemma {:induction false} SplitNoSlash(s: string)
    requires NoSlash(s)
    ensures Split(s) == [s]
  {
    if s != "" {
      SplitNoSlash(s[1..]);
      assert s == [s[0]] + s[1..];
    }
  }

  lemma {:induction false} SplitConcat(a: string, b: string)
    ensures Split(a + "/" + b) == Split(a) + Split(b)
  {
    var t := a + "/" + b;
    if a == "" {
      assert t[1..] == b;
    } else {
      assert t[1..] == a[1..] + "/" + b;
      SplitConcat(a[1..], b);
    }
  }

  lemma {:induction false} SplitJoin(parts: seq<string>)
    requires |parts| > 0 && forall i | 0 <= i < |parts| :: NoSlash(parts[i])
    ensures Split(Join(parts)) == parts
  {
    SplitNoSlash(parts[0]);
    if |parts| > 1 {
      SplitJoin(parts[1..]);
      SplitConcat(parts[0], Join(parts[1..]));
    }
  }

  /** The components of a joined list are those of its elements. */
  function SplitAll(parts: seq<string>): seq<string> {
    if parts == [] then [] else Split(parts[0]) + SplitAll(parts[1..])
  }

  lemma {:induction false} SplitJoinAll(parts: seq<string>)
    requires |parts| > 0
    ensures Split(Join(parts)) == SplitAll(parts)
  {
    if |parts| > 1 {
      SplitJoinAll(parts[1..]);
      SplitConcat(parts[0], Join(parts[1..]));
    }
  }

  /** The components `path.Clean` keeps of a relative name, after those already kept. */
  function Reduce(parts: seq<string>, kept: seq<string>): seq<string>
    decreases |parts|
  {
    if parts == [] then kept
    else if parts[0] == "" || parts[0] == "." then Reduce(parts[1..], kept)
    else if parts[0] == ".." && kept != [] && kept[|kept| - 1] != ".." then Reduce(parts[1..], kept[..|kept| - 1])
    else Reduce(parts[1..], kept + [parts[0]])
  }

  /** `path.Clean` on a relative name. */
  function CleanRelative(s: string): string {
    var kept := Reduce(Split(s), []);
    if kept == [] then "." else Join(kept)
  }

  /** `validateArtifactReference` returns no error. */
  predicate ValidReference(s: string) {
    && !Blank(s)
    && s[0] != '/'
    && CleanRelative(s) == s
    && !("../" <= s)
    && forall i | 0 <= i < |s| :: !IsControl(s[i]) && !IsSpace(s[i])
  }

  /** A component that cleaning keeps as it is and that holds no white space. */
  predicate PlainComponent(s: string) {
    && s != "" && s != "." && s != ".."
    && NoSlash(s)
    && forall i | 0 <= i < |s| :: !IsControl(s[i]) && !IsSpace(s[i])
  }

  lemma {:induction false} ReducePlain(parts: seq<string>, kept: seq<string>)
    requires forall i | 0 <= i < |parts| :: PlainComponent(parts[i])
    ensures Reduce(parts, kept) == kept + parts
    decreases |parts|
  {
    if parts != [] {
      assert PlainComponent(parts[0]);
      ReducePlain(parts[1..], kept + [parts[0]]);
    }
  }

  lemma {:induction false} JoinPlainCharacters(parts: seq<string>)
    requires |parts| > 0 && forall i | 0 <= i < |parts| :: PlainComponent(parts[i])
    ensures parts[0] != "" && Join(parts) != "" && Join(parts)[0] == parts[0][0]
    ensures forall i | 0 <= i < |Join(parts)| :: !IsControl(Join(parts)[i]) && !IsSpace(Join(parts)[i])
  {
    assert PlainComponent(parts[0]);
    if |parts| > 1 {
      JoinPlainCharacters(parts[1..]);
    }
  }

  /** Names made of plain components are accepted as artifact references. */
  lemma {:induction false} PlainIsValidReference(parts: seq<string>)
    requires |parts| > 0 && forall i | 0 <= i < |parts| :: PlainComponent(parts[i])
    ensures ValidReference(Join(parts))
  {
    var s := Join(parts);
    JoinPlainCharacters(parts);
    SplitJoin(parts);
    ReducePlain(parts, []);
    assert [] + parts == parts;
    assert PlainComponent(parts[0]);
    assert !IsSpace(s[0]);
    if "../" <= s {
      var rest := s[3..];
      assert s == ".." + "/" + rest;
      SplitConcat("..", rest);
      SplitNoSlash("..");
    }
  }

  // The converse: what is accepted consists of such components, except for the two names that are dots only.

  lemma {:induction false} SplitParts(s: string)
    ensures forall i | 0 <= i < |Split(s)| :: NoSlash(Split(s)[i]) && forall k | 0 <= k < |Split(s)[i]| :: Split(s)[i][k] in s
  {
    if s != "" {
      var rest := Split(s[1..]);
      SplitParts(s[1..]);
      forall i | 0 <= i < |Split(s)|
        ensures NoSlash(Split(s)[i]) && forall k | 0 <= k < |Split(s)[i]| :: Split(s)[i][k] in s
      {
        if s[0] != '/' && i == 0 {
          assert Split(s)[0] == [s[0]] + rest[0];
        } else if i > 0 {
          assert Split(s)[i] == rest[if s[0] == '/' then i - 1 else i];
        }
      }
    }
  }

  lemma {:induction false} ReduceNoSlash(parts: seq<string>, kept: seq<string>)
    requires forall i | 0 <= i < |parts| :: NoSlash(parts[i])
    requires forall i | 0 <= i < |kept| :: NoSlash(kept[i])
    ensures forall i | 0 <= i < |Reduce(parts, kept)| :: NoSlash(Reduce(parts, kept)[i])
    decreases |parts|
  {
    if parts == [] {
    } else if parts[0] == "" || parts[0] == "." {
      ReduceNoSlash(parts[1..], kept);
    } else if parts[0] == ".." && kept != [] && kept[|kept| - 1] != ".." {
      ReduceNoSlash(parts[1..], kept[..|kept| - 1]);
    } else {
      ReduceNoSlash(parts[1..], kept + [parts[0]]);
    }
  }

  lemma {:induction false} ReduceShrinks(parts: seq<string>, kept: seq<string>)
    ensures |Reduce(parts, kept)| <= |kept| + |parts|
    decreases |parts|
  {
    if parts == [] {
    } else if parts[0] == "" || parts[0] == "." {
      ReduceShrinks(parts[1..], kept);
    } else if parts[0] == ".." && kept != [] && kept[|kept| - 1] != ".." {
      ReduceShrinks(parts[1..], kept[..|kept| - 1]);
    } else {
      ReduceShrinks(parts[1..], kept + [parts[0]]);
    }
  }

  /** If cleaning drops nothing, no component is empty or one dot, and two dots follow two dots only. */
  lemma {:induction false} NothingReduced(parts: seq<string>, kept: seq<string>)
    requires |Reduce(parts, kept)| == |kept| + |parts|
    ensures forall i | 0 <= i < |parts| :: parts[i] != "" && parts[i] != "."
    ensures kept != [] && kept[|kept| - 1] != ".." ==> forall i | 0 <= i < |parts| :: parts[i] != ".."
    ensures parts != [] && parts[0] != ".." ==> forall i | 0 <= i < |parts| :: parts[i] != ".."
    decreases |parts|
  {
    if parts != [] {
      ReduceShrinks(parts[1..], kept);
      if kept != [] {
        ReduceShrinks(parts[1..], kept[..|kept| - 1]);
      }
      NothingReduced(parts[1..], kept + [parts[0]]);
      assert forall i | 1 <= i < |parts| :: parts[i] == parts[1..][i - 1];
    }
  }

  /** A name equal to its cleaned form has only components that cleaning keeps. */
  lemma {:induction false} CleanIsKept(s: string)
    requires CleanRelative(s) == s
    ensures s == "." || Reduce(Split(s), []) == Split(s)
  {
    var kept := Reduce(Split(s), []);
    if kept != [] {
      SplitParts(s);
      ReduceNoSlash(Split(s), []);
      SplitJoin(kept);
    }
  }

  /** The reference check in full: a name made of plain components, or one of the two names that are dots only. */
  lemma {:induction false} ValidReferenceIff(s: string)
    ensures ValidReference(s) <==> s == "." || s == ".." || AllPlain(Split(s))
  {
    if s == "." || s == ".." {
      DotsAreValid(s);
    } else if ValidReference(s) {
      ValidIsPlain(s);
    } else if AllPlain(Split(s)) {
      PlainIsValidReference(Split(s));
      JoinSplit(s);
    }
  }

  ghost predicate AllPlain(parts: seq<string>) {
    forall i | 0 <= i < |parts| :: PlainComponent(parts[i])
  }

  lemma ReduceOne(part: string)
    ensures Reduce([part], []) == if part == "" || part == "." then [] else [part]
  {
    assert [part][1..] == [] && [] + [part] == [part];
  }

  lemma DotsAreValid(s: string)
    requires s == "." || s == ".."
    ensures ValidReference(s)
  {
    SplitNoSlash(s);
    ReduceOne(s);
    assert s[0] == '.' && !IsSpace('.') && !IsControl('.');
    assert !("../" <= s);
  }

  lemma {:induction false} ValidIsPlain(s: string)
    requires ValidReference(s) && s != "." && s != ".."
    ensures AllPlain(Split(s))
  {
    var parts := Split(s);
    CleanIsKept(s);
    NothingReduced(parts, []);
    SplitParts(s);
    if parts[0] == ".." {
      StartsAbove(s);
    }
    forall i | 0 <= i < |parts| ensures PlainComponent(parts[i]) {
      assert forall k | 0 <= k < |parts[i]| :: parts[i][k] in s;
    }
  }

  lemma StartsAbove(s: string)
    requires Split(s)[0] == ".."
    ensures s == ".." || "../" <= s
  {
    var parts := Split(s);
    JoinSplit(s);
    if |parts| > 1 {
      assert s == ".." + "/" + Join(parts[1..]);
    }
  }
}

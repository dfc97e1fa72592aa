/** The snapshot filename of a URL (src/utils.ts). Parsing the URL is the
    job of a URL parser the model takes as given; the SHA-256 digest and the
    clock are given as well (see Types.Libraries). */
module Utils {
  import opened Types
  import opened Text

  /** `hostname.replace(/\./g, "-")` */
  function DotsToDashes(host: string): (r: string)
    ensures |r| == |host| && '.' !in r
    ensures forall i :: 0 <= i < |host| && host[i] != '.' ==> r[i] == host[i]
    ensures forall i :: 0 <= i < |host| && host[i] == '.' ==> r[i] == '-'
  {
    seq(|host|, i requires 0 <= i < |host| => if host[i] == '.' then '-' else host[i])
  }

  predicate IsAlnum(c: char)
  {
    'a' <= c <= 'z' || 'A' <= c <= 'Z' || '0' <= c <= '9'
  }

  predicate IsSlugChar(c: char)
  {
    IsAlnum(c) || c == '-'
  }

  predicate NoDoubleDash(s: string)
  {
    forall i :: 0 <= i < |s| - 1 && s[i] == '-' ==> s[i + 1] != '-'
  }

  /** `.replace(/[^a-zA-Z0-9]/g, "-")` */
  function NonAlnumToDash(p: string): (r: string)
    ensures |r| == |p|
    ensures forall i :: 0 <= i < |r| ==> IsSlugChar(r[i])
    ensures forall i :: 0 <= i < |r| ==> r[i] == if IsAlnum(p[i]) then p[i] else '-'
  {
    seq(|p|, i requires 0 <= i < |p| => if IsAlnum(p[i]) then p[i] else '-')
  }

  /** The characters of `s` other than dashes, in order. */
  function NonDashes(s: string): string
  {
    if s == [] then [] else (if s[0] == '-' then [] else [s[0]]) + NonDashes(s[1..])
  }

  /** The letters and digits of `s`, in order. */
  function Alnums(s: string): string
  {
    if s == [] then [] else (if IsAlnum(s[0]) then [s[0]] else []) + Alnums(s[1..])
  }

  /** `.replace(/-+/g, "-")`: every run of dashes becomes one dash; only
      dashes are dropped. */
  function CollapseDashes(s: string): (r: string)
    ensures |r| <= |s|
    ensures s != [] ==> r != [] && r[0] == s[0] && r[|r| - 1] == s[|s| - 1]
    ensures forall i :: 0 <= i < |r| ==> r[i] in s
    ensures NoDoubleDash(r)
    ensures NonDashes(r) == NonDashes(s)
  {
    if |s| <= 1 then s
    else if s[0] == '-' && s[1] == '-' then CollapseDashes(s[1..])
    else
      var t := CollapseDashes(s[1..]);
      assert ([s[0]] + t)[1..] == t;
      [s[0]] + t
  }

  /** `.replace(/^-|-$/g, "")`: drops one leading and one trailing dash. */
  function TrimDashes(s: string): (r: string)
  {
    var t := if s != [] && s[0] == '-' then s[1..] else s;
    if t != [] && t[|t| - 1] == '-' then t[..|t| - 1] else t
  }

  /** The path part of the filename: letters, digits and single inner dashes. */
  function SanitizePath(p: string): (r: string)
    ensures forall i :: 0 <= i < |r| ==> IsSlugChar(r[i])
    ensures NoDoubleDash(r)
    ensures r == [] || (r[0] != '-' && r[|r| - 1] != '-')
  {
    var d := NonAlnumToDash(p);
    var c := CollapseDashes(d);
    assert forall i :: 0 <= i < |c| ==> IsSlugChar(c[i]) by {
      forall i | 0 <= i < |c| ensures IsSlugChar(c[i]) {
        var j :| 0 <= j < |d| && d[j] == c[i];
      }
    }
    TrimDashesOfSlug(c);
    TrimDashes(c)
  }

  lemma {:induction false} AlnumsAppend(a: string, b: string)
    ensures Alnums(a + b) == Alnums(a) + Alnums(b)
  {
    if a == [] {
      assert a + b == b;
    } else {
      var h := if IsAlnum(a[0]) then [a[0]] else [];
      assert (a + b)[0] == a[0] && (a + b)[1..] == a[1..] + b;
      assert Alnums(a + b) == h + Alnums(a[1..] + b);
      AlnumsAppend(a[1..], b);
      assert h + (Alnums(a[1..]) + Alnums(b)) == (h + Alnums(a[1..])) + Alnums(b);
    }
  }

  lemma {:induction false} AlnumsOfNonAlnumToDash(p: string)
    ensures Alnums(NonAlnumToDash(p)) == Alnums(p)
  {
    if p != [] {
      assert NonAlnumToDash(p)[1..] == NonAlnumToDash(p[1..]);
      AlnumsOfNonAlnumToDash(p[1..]);
    }
  }

  /** In a string of letters, digits and dashes, dropping the dashes keeps
      exactly the letters and digits. */
  lemma {:induction false} SlugAlnumsAreNonDashes(s: string)
    requires forall i :: 0 <= i < |s| ==> IsSlugChar(s[i])
    ensures Alnums(s) == NonDashes(s)
  {
    if s != [] {
      assert IsSlugChar(s[0]);
      assert forall i :: 0 <= i < |s[1..]| ==> s[1..][i] == s[i + 1];
      SlugAlnumsAreNonDashes(s[1..]);
    }
  }

  lemma AlnumsOfTrimDashes(s: string)
    ensures Alnums(TrimDashes(s)) == Alnums(s)
  {
    var t := if s != [] && s[0] == '-' then s[1..] else s;
    assert Alnums(t) == Alnums(s);
    if t != [] && t[|t| - 1] == '-' {
      assert t == t[..|t| - 1] + ['-'];
      AlnumsAppend(t[..|t| - 1], ['-']);
    }
  }

  /** Sanitising keeps every letter and digit of the path, in order, and
      adds none: only the separators between them change. */
  lemma SanitizeKeepsAlnums(p: string)
    ensures Alnums(SanitizePath(p)) == Alnums(p)
  {
    var d := NonAlnumToDash(p);
    var c := CollapseDashes(d);
    assert forall i :: 0 <= i < |c| ==> IsSlugChar(c[i]) by {
      forall i | 0 <= i < |c| ensures IsSlugChar(c[i]) {
        var j :| 0 <= j < |d| && d[j] == c[i];
      }
    }
    AlnumsOfNonAlnumToDash(p);
    SlugAlnumsAreNonDashes(d);
    SlugAlnumsAreNonDashes(c);
    AlnumsOfTrimDashes(c);
  }

  lemma {:induction false} NoAlnumsInSlug(s: string)
    requires forall i :: 0 <= i < |s| ==> IsSlugChar(s[i])
    requires Alnums(s) == []
    ensures forall i :: 0 <= i < |s| ==> s[i] == '-'
  {
    if s != [] {
      assert IsSlugChar(s[0]);
      assert forall i :: 0 <= i < |s[1..]| ==> s[1..][i] == s[i + 1];
      NoAlnumsInSlug(s[1..]);
      forall i | 1 <= i < |s| ensures s[i] == '-' {
        assert s[i] == s[1..][i - 1];
      }
    }
  }

  /** The path part is empty (and `index` takes its place) exactly when the
      path holds no letter or digit. */
  lemma SanitizeEmptyIff(p: string)
    ensures SanitizePath(p) == [] <==> Alnums(p) == []
  {
    var r := SanitizePath(p);
    SanitizeKeepsAlnums(p);
    if r != [] && Alnums(p) == [] {
      NoAlnumsInSlug(r);
    }
  }

  /** Two dashes in a row collapse like one: with `CollapseKeepsSingleDashes`
      this fixes the collapse on every input. */
  lemma {:induction false} CollapseStep(a: string, b: string)
    ensures CollapseDashes(a + "--" + b) == CollapseDashes(a + "-" + b)
  {
    var s := a + "--" + b;
    var t := a + "-" + b;
    if a == [] {
      assert s[1..] == t;
    } else {
      assert s[0] == t[0] == a[0];
      assert s[1] == t[1];
      assert s[1..] == a[1..] + "--" + b;
      assert t[1..] == a[1..] + "-" + b;
      CollapseStep(a[1..], b);
    }
  }

  /** The maximal runs of letters and digits of `p`, in order. */
  function AlnumRuns(p: string): (r: seq<string>)
    ensures forall k :: 0 <= k < |r| ==> IsWord(r[k])
    ensures r == [] <==> forall i :: 0 <= i < |p| ==> !IsAlnum(p[i])
  {
    if p == [] then []
    else
      var rest := AlnumRuns(p[1..]);
      assert forall i :: 1 <= i < |p| ==> p[i] == p[1..][i - 1];
      if !IsAlnum(p[0]) then rest
      else if |p| > 1 && IsAlnum(p[1]) then
        assert p[1] == p[1..][0];
        [[p[0]] + rest[0]] + rest[1..]
      else [[p[0]]] + rest
  }

  /** The words joined by single dashes. */
  function DashJoin(ws: seq<string>): string
  {
    if ws == [] then "" else if |ws| == 1 then ws[0] else ws[0] + "-" + DashJoin(ws[1..])
  }

  lemma {:induction false} DashJoinEnds(ws: seq<string>)
    requires forall k :: 0 <= k < |ws| ==> IsWord(ws[k])
    ensures var j := DashJoin(ws);
      (j == [] <==> ws == []) && (j != [] ==> IsAlnum(j[0]) && IsAlnum(j[|j| - 1]))
  {
    if |ws| > 1 {
      DashJoinEnds(ws[1..]);
      var j := DashJoin(ws);
      var rest := DashJoin(ws[1..]);
      assert IsWord(ws[0]);
      assert j[0] == ws[0][0];
      assert j[|j| - 1] == rest[|rest| - 1];
    } else if |ws| == 1 {
      assert IsWord(ws[0]);
    }
  }

  lemma DashJoinCons(c: char, ws: seq<string>)
    requires ws != []
    ensures DashJoin([[c] + ws[0]] + ws[1..]) == [c] + DashJoin(ws)
  {
    var vs := [[c] + ws[0]] + ws[1..];
    assert vs[0] == [c] + ws[0] && vs[1..] == ws[1..];
    if |ws| > 1 {
      assert DashJoin(vs) == ([c] + ws[0]) + "-" + DashJoin(ws[1..]);
    }
  }

  /** What the collapse leaves of the dashed path: the runs joined by single
      dashes, with one dash for leading and one for trailing separators. */
  function Lead(p: string): string
  {
    if p != [] && !IsAlnum(p[0]) then "-" else ""
  }

  function Trail(p: string): string
  {
    if p != [] && !IsAlnum(p[|p| - 1]) && AlnumRuns(p) != [] then "-" else ""
  }

  lemma {:induction false} CollapsedRuns(p: string)
    ensures CollapseDashes(NonAlnumToDash(p)) == Lead(p) + DashJoin(AlnumRuns(p)) + Trail(p)
  {
    if |p| == 1 {
      assert p[1..] == [];
    } else if |p| > 1 {
      CollapsedRuns(p[1..]);
      if !IsAlnum(p[0]) && !IsAlnum(p[1]) {
        CollapsedSeparators(p);
      } else if !IsAlnum(p[0]) {
        CollapsedSeparatorThenRun(p);
      } else if !IsAlnum(p[1]) {
        CollapsedRunEnds(p);
      } else {
        CollapsedRunGoesOn(p);
      }
    }
  }

  lemma CollapseDashedStep(p: string)
    requires |p| > 1
    ensures CollapseDashes(NonAlnumToDash(p))
      == if !IsAlnum(p[0]) && !IsAlnum(p[1]) then CollapseDashes(NonAlnumToDash(p[1..]))
         else [NonAlnumToDash(p)[0]] + CollapseDashes(NonAlnumToDash(p[1..]))
  {
    assert NonAlnumToDash(p)[1..] == NonAlnumToDash(p[1..]);
  }

  lemma RunsStep(p: string)
    requires |p| > 1
    ensures var rq := AlnumRuns(p[1..]);
      AlnumRuns(p) == if !IsAlnum(p[0]) then rq
                      else if IsAlnum(p[1]) then [[p[0]] + rq[0]] + rq[1..]
                      else [[p[0]]] + rq
  {
    assert p[1..][0] == p[1];
  }

  lemma TrailShift(p: string)
    requires |p| > 1
    requires (AlnumRuns(p) == []) == (AlnumRuns(p[1..]) == [])
    ensures Trail(p) == Trail(p[1..])
  {
    assert p[1..][|p[1..]| - 1] == p[|p| - 1];
  }

  lemma CollapsedSeparators(p: string)
    requires |p| > 1 && !IsAlnum(p[0]) && !IsAlnum(p[1])
    requires CollapseDashes(NonAlnumToDash(p[1..])) == Lead(p[1..]) + DashJoin(AlnumRuns(p[1..])) + Trail(p[1..])
    ensures CollapseDashes(NonAlnumToDash(p)) == Lead(p) + DashJoin(AlnumRuns(p)) + Trail(p)
  {
    CollapseDashedStep(p);
    RunsStep(p);
    TrailShift(p);
    assert p[1..][0] == p[1];
  }

  lemma CollapsedSeparatorThenRun(p: string)
    requires |p| > 1 && !IsAlnum(p[0]) && IsAlnum(p[1])
    requires CollapseDashes(NonAlnumToDash(p[1..])) == Lead(p[1..]) + DashJoin(AlnumRuns(p[1..])) + Trail(p[1..])
    ensures CollapseDashes(NonAlnumToDash(p)) == Lead(p) + DashJoin(AlnumRuns(p)) + Trail(p)
  {
    var q := p[1..];
    CollapseDashedStep(p);
    RunsStep(p);
    TrailShift(p);
    assert q[0] == p[1];
    assert NonAlnumToDash(p)[0] == '-';
    assert Lead(q) == "" && Lead(p) == "-";
    JoinAfterSeparator(DashJoin(AlnumRuns(q)), Trail(q));
  }

  lemma JoinAfterSeparator(j: string, t: string)
    ensures ['-'] + ("" + j + t) == "-" + j + t
  {
    assert "" + j == j;
  }

  lemma CollapsedRunEnds(p: string)
    requires |p| > 1 && IsAlnum(p[0]) && !IsAlnum(p[1])
    requires CollapseDashes(NonAlnumToDash(p[1..])) == Lead(p[1..]) + DashJoin(AlnumRuns(p[1..])) + Trail(p[1..])
    ensures CollapseDashes(NonAlnumToDash(p)) == Lead(p) + DashJoin(AlnumRuns(p)) + Trail(p)
  {
    var q := p[1..];
    var rq := AlnumRuns(q);
    CollapseDashedStep(p);
    RunsStep(p);
    assert q[0] == p[1];
    assert NonAlnumToDash(p)[0] == p[0];
    assert Lead(q) == "-" && Lead(p) == "";
    var j := DashJoin(rq);
    var t := Trail(q);
    if rq == [] {
      RunEndsPath(p);
      JoinOneRun(p[0], rq, j, t);
    } else {
      TrailShift(p);
      JoinRunThenMore(p[0], rq, j, t);
    }
  }

  lemma RunEndsPath(p: string)
    requires |p| > 1 && IsAlnum(p[0]) && AlnumRuns(p[1..]) == []
    ensures Trail(p) == "-" && Trail(p[1..]) == ""
  {
    var q := p[1..];
    assert !IsAlnum(q[|q| - 1]);
    assert q[|q| - 1] == p[|p| - 1];
    assert AlnumRuns(p) != [] by {
      assert IsAlnum(p[0]);
    }
  }

  lemma JoinOneRun(c: char, rq: seq<string>, j: string, t: string)
    requires rq == [] && j == DashJoin(rq) && t == ""
    ensures [c] + ("-" + j + t) == "" + DashJoin([[c]] + rq) + "-"
  {
    assert [[c]] + rq == [[c]];
  }

  lemma JoinRunThenMore(c: char, rq: seq<string>, j: string, t: string)
    requires rq != [] && j == DashJoin(rq)
    ensures [c] + ("-" + j + t) == "" + DashJoin([[c]] + rq) + t
  {
    var vs := [[c]] + rq;
    assert vs[0] == [c] && vs[1..] == rq;
    assert DashJoin(vs) == [c] + "-" + j;
  }

  lemma CollapsedRunGoesOn(p: string)
    requires |p| > 1 && IsAlnum(p[0]) && IsAlnum(p[1])
    requires CollapseDashes(NonAlnumToDash(p[1..])) == Lead(p[1..]) + DashJoin(AlnumRuns(p[1..])) + Trail(p[1..])
    ensures CollapseDashes(NonAlnumToDash(p)) == Lead(p) + DashJoin(AlnumRuns(p)) + Trail(p)
  {
    var q := p[1..];
    var rq := AlnumRuns(q);
    CollapseDashedStep(p);
    RunsStep(p);
    assert q[0] == p[1];
    assert NonAlnumToDash(p)[0] == p[0];
    assert Lead(q) == "" && Lead(p) == "";
    TrailShift(p);
    JoinRunGoesOn(p[0], rq, DashJoin(rq), Trail(q));
  }

  lemma JoinRunGoesOn(c: char, rq: seq<string>, j: string, t: string)
    requires rq != [] && j == DashJoin(rq)
    ensures [c] + ("" + j + t) == "" + DashJoin([[c] + rq[0]] + rq[1..]) + t
  {
    DashJoinCons(c, rq);
  }

  /** Trimming drops the single dash on either side of a word list. */
  lemma TrimFramed(l: string, j: string, t: string)
    requires l == "" || l == "-"
    requires t == "" || t == "-"
    requires j == [] ==> t == ""
    requires j != [] ==> IsAlnum(j[0]) && IsAlnum(j[|j| - 1])
    ensures TrimDashes(l + j + t) == j
  {
    var c := l + j + t;
    if j != [] {
      var u := j + t;
      assert (if c != [] && c[0] == '-' then c[1..] else c) == u;
      assert u[..|j|] == j;
    }
  }

  /** The path part is the path's runs of letters and digits joined by single
      dashes: each run of other characters between two runs leaves one `-`. */
  lemma SanitizeIsDashJoin(p: string)
    ensures SanitizePath(p) == DashJoin(AlnumRuns(p))
  {
    CollapsedRuns(p);
    DashJoinEnds(AlnumRuns(p));
    TrimFramed(Lead(p), DashJoin(AlnumRuns(p)), Trail(p));
  }

  lemma TrimDashesOfSlug(c: string)
    requires forall i :: 0 <= i < |c| ==> IsSlugChar(c[i])
    requires NoDoubleDash(c)
    ensures var r := TrimDashes(c);
      && (forall i :: 0 <= i < |r| ==> IsSlugChar(r[i]))
      && NoDoubleDash(r)
      && (r == [] || (r[0] != '-' && r[|r| - 1] != '-'))
  {
    var t := if c != [] && c[0] == '-' then c[1..] else c;
    assert NoDoubleDash(t) by {
      forall i | 0 <= i < |t| - 1 && t[i] == '-' ensures t[i + 1] != '-' {
        if c != [] && c[0] == '-' {
          assert t[i] == c[i + 1] && t[i + 1] == c[i + 2];
        }
      }
    }
    assert t != [] ==> t[0] != '-' by {
      if t != [] && c != [] && c[0] == '-' {
        assert t[0] == c[1];
      }
    }
    if t != [] && t[|t| - 1] == '-' {
      var r := t[..|t| - 1];
      assert r != [] ==> r[|r| - 1] == t[|t| - 2];
    }
  }

  /** The filename for a parsed URL: host with dots as dashes, then the path
      (or `index`), then `.json`, lowercased; host and path are not separated. */
  function FilenameOf(parts: UrlParts): string
  {
    var host := DotsToDashes(parts.hostname);
    var path := SanitizePath(parts.pathname);
    ToLower(host + (if path == "" then "index" else path) + ".json")
  }

  /** Every filename is lower-case and ends in `.json`, with no other dot. */
  lemma FilenameShape(parts: UrlParts)
    ensures var r := FilenameOf(parts);
      IsLowerCase(r) && |r| > 5 && r[|r| - 5..] == ".json" && '.' !in r[..|r| - 5]
  {
    var host := DotsToDashes(parts.hostname);
    var path := SanitizePath(parts.pathname);
    var stem := host + (if path == "" then "index" else path);
    assert '.' !in stem by {
      assert forall i :: 0 <= i < |path| ==> IsSlugChar(path[i]);
    }
    LowerJson(stem);
  }

  lemma LowerJson(stem: string)
    requires stem != [] && '.' !in stem
    ensures var r := ToLower(stem + ".json");
      IsLowerCase(r) && |r| > 5 && r[|r| - 5..] == ".json" && '.' !in r[..|r| - 5]
  {
    ToLowerLaws(stem, ".json");
    ToLowerLaws(stem + ".json", "");
    LowerJsonSuffix();
    LowerKeepsDotFree(stem);
    var r := ToLower(stem + ".json");
    assert r == ToLower(stem) + ".json";
    assert IsLowerCase(r);
    assert r[..|r| - 5] == ToLower(stem);
    assert r[|r| - 5..] == ".json";
  }

  lemma LowerJsonSuffix()
    ensures ToLower(".json") == ".json"
  {
    assert IsLowerCase(".json");
    ToLowerLaws(".json", "");
  }

  lemma LowerKeepsDotFree(s: string)
    requires '.' !in s
    ensures '.' !in ToLower(s)
  {
    forall i | 0 <= i < |s| ensures ToLower(s)[i] != '.' {
      assert ToLower(s)[i] == LowerChar(s[i]);
    }
  }

  /** `urlToFilename(url)`: fails with `Invalid URL: <url>` when the URL does not parse. */
  function UrlToFilename(url: string, parseUrl: string -> Option<UrlParts>): (r: Result<string>)
    ensures r.Err? <==> parseUrl(url).None?
    ensures r.Err? ==> r.message == "Invalid URL: " + url
    ensures r.Ok? ==> r.value == FilenameOf(parseUrl(url).value)
  {
    match parseUrl(url)
    case None => Err("Invalid URL: " + url)
    case Some(parts) => Ok(FilenameOf(parts))
  }

  lemma {:induction false} CollapseKeepsSingleDashes(s: string)
    requires NoDoubleDash(s)
    ensures CollapseDashes(s) == s
  {
    if |s| > 1 {
      assert NoDoubleDash(s[1..]) by {
        forall i | 0 <= i < |s[1..]| - 1 && s[1..][i] == '-'
          ensures s[1..][i + 1] != '-'
        {
          assert s[i + 1] == '-';
        }
      }
      CollapseKeepsSingleDashes(s[1..]);
      assert [s[0]] + s[1..] == s;
    }
  }

  lemma NonAlnumToDashOfSlug(s: string)
    requires forall i :: 0 <= i < |s| ==> IsSlugChar(s[i])
    ensures NonAlnumToDash(s) == s
  {
  }

  lemma TrimDashesOfTrimmed(s: string)
    requires s == [] || (s[0] != '-' && s[|s| - 1] != '-')
    ensures TrimDashes(s) == s
  {
  }

  /** Sanitising a sanitised path changes nothing. */
  lemma SanitizePathIdempotent(p: string)
    ensures SanitizePath(SanitizePath(p)) == SanitizePath(p)
  {
    var s := SanitizePath(p);
    NonAlnumToDashOfSlug(s);
    CollapseKeepsSingleDashes(s);
    TrimDashesOfTrimmed(s);
  }

  lemma DotsToDashesOfDotFree(s: string)
    requires '.' !in s
    ensures DotsToDashes(s) == s
  {
  }

  /** A dot after a dot-free label becomes a dash and nothing else changes. */
  lemma DotsToDashesAfterLabel(a: string, b: string)
    requires '.' !in a
    ensures DotsToDashes(a + "." + b) == a + "-" + DotsToDashes(b)
  {
    var s := a + "." + b;
    var r := a + "-" + DotsToDashes(b);
    assert |DotsToDashes(s)| == |r|;
    forall i | 0 <= i < |s| ensures DotsToDashes(s)[i] == r[i] {
      if i < |a| {
        assert s[i] == a[i];
      } else if i > |a| {
        assert s[i] == b[i - |a| - 1];
      }
    }
  }

  lemma SanitizeRoot()
    ensures SanitizePath("/") == ""
  {
    assert NonAlnumToDash("/") == "-";
  }

  /** A site root gets the `index` marker glued to the host: for a
      lower-case host `a.b` whose labels hold no dot, the filename is
      `a-bindex.json` (so `example.com` gives `example-comindex.json`). */
  lemma RootFilename(url: string, a: string, b: string, parseUrl: string -> Option<UrlParts>)
    requires '.' !in a && '.' !in b && IsLowerCase(a + b)
    requires parseUrl(url) == Some(UrlParts(a + "." + b, "/"))
    ensures UrlToFilename(url, parseUrl) == Ok(a + "-" + b + "index.json")
  {
    SanitizeRoot();
    DotsToDashesOfDotFree(b);
    DotsToDashesAfterLabel(a, b);
    var stem := a + "-" + b + "index";
    assert stem + ".json" == a + "-" + b + "index.json";
    assert IsLowerCase(stem + ".json") by {
      forall i | 0 <= i < |stem + ".json"| ensures !('A' <= (stem + ".json")[i] <= 'Z') {
        if i < |a| {
          assert (stem + ".json")[i] == (a + b)[i];
        } else if |a| < i < |a| + 1 + |b| {
          assert (stem + ".json")[i] == (a + b)[i - 1];
        }
      }
    }
    ToLowerLaws(stem + ".json", "");
  }

  predicate IsWord(w: string)
  {
    w != [] && forall i :: 0 <= i < |w| ==> IsAlnum(w[i])
  }

  lemma NonAlnumToDashOfWord(w: string)
    requires IsWord(w)
    ensures NonAlnumToDash("/" + w) == "-" + w
  {
    var d := NonAlnumToDash("/" + w);
    forall i | 0 <= i < |d| ensures d[i] == ("-" + w)[i] {
      if i > 0 {
        assert ("/" + w)[i] == w[i - 1];
      }
    }
  }

  lemma DashWordHasNoDoubleDash(w: string)
    requires IsWord(w)
    ensures NoDoubleDash("-" + w)
  {
    var d := "-" + w;
    forall j | 1 <= j < |d| ensures d[j] != '-' {
      assert d[j] == w[j - 1];
    }
  }

  lemma TrimDashesOfDashWord(w: string)
    requires IsWord(w)
    ensures TrimDashes("-" + w) == w
  {
    assert ("-" + w)[1..] == w;
    assert IsAlnum(w[|w| - 1]);
  }

  /** A path of one word after the slash sanitises to that word. */
  lemma SanitizeOneWord(w: string)
    requires IsWord(w)
    ensures SanitizePath("/" + w) == w
  {
    NonAlnumToDashOfWord(w);
    DashWordHasNoDoubleDash(w);
    CollapseKeepsSingleDashes("-" + w);
    TrimDashesOfDashWord(w);
  }

  lemma DotsToDashesAppend(h: string, w: string)
    requires '.' !in w
    ensures DotsToDashes(h + w) == DotsToDashes(h) + w
  {
    var r := DotsToDashes(h) + w;
    forall i | 0 <= i < |h + w| ensures DotsToDashes(h + w)[i] == r[i] {
      if i >= |h| {
        assert (h + w)[i] == w[i - |h|];
      }
    }
  }

  /** The filename of a site root: the host, dots as dashes, then `index`. */
  lemma FilenameOfRoot(host: string)
    ensures FilenameOf(UrlParts(host, "/")) == ToLower(DotsToDashes(host) + "index" + ".json")
  {
    SanitizeRoot();
  }

  /** The filename of a one-word path: the host, dots as dashes, then the word. */
  lemma FilenameOfWordPath(host: string, w: string)
    requires IsWord(w)
    ensures FilenameOf(UrlParts(host, "/" + w)) == ToLower(DotsToDashes(host) + w + ".json")
  {
    SanitizeOneWord(w);
  }

  /** With no separator between host and path, moving a word from the end of
      the host to the front of an `index` path keeps the filename: different
      URLs share one snapshot file. */
  lemma FilenamesCollide(host: string, w: string)
    requires IsWord(w)
    ensures UrlParts(host + w, "/") != UrlParts(host, "/" + w + "index")
    ensures FilenameOf(UrlParts(host + w, "/")) == FilenameOf(UrlParts(host, "/" + w + "index"))
  {
    WordIndex(w);
    var path := "/" + w + "index";
    assert path == "/" + (w + "index");
    assert |path| > 1;
    FilenameOfRoot(host + w);
    FilenameOfWordPath(host, w + "index");
    DotsToDashesAppend(host, w);
    StemRegroup(DotsToDashes(host), w);
  }

  lemma StemRegroup(h: string, w: string)
    ensures (h + w) + "index" + ".json" == h + (w + "index") + ".json"
  {
  }

  lemma WordIndex(w: string)
    requires IsWord(w)
    ensures '.' !in w && IsWord(w + "index")
  {
    assert forall i :: 0 <= i < |w| ==> IsAlnum(w[i]);
    assert forall i :: 0 <= i < |w| ==> (w + "index")[i] == w[i];
  }
}

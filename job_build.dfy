// The build job compiler: how saved, preset and runtime build arguments
// are merged into a build job's specification, and how the specification
// is compiled into one job task per service module.

module JobBuild {
  import opened Common
  import opened Models

  const ImageKey := "IMAGE"
  const ImageTagKey := "imageTag"
  const PkgFileKey := "PKG_FILE"

  // =====================================================================
  // renderKeyVals: origin's parameters, with values taken from input

  /**
   * The value a parameter named `key` ends up with when every entry of
   * `input` with that key overwrites it in turn, starting from `dflt`.
   */
  function RenderedValue(input: seq<KeyVal>, key: string, dflt: string): string
  {
    if |input| == 0 then dflt
    else if input[|input| - 1].key == key then input[|input| - 1].value
    else RenderedValue(input[..|input| - 1], key, dflt)
  }

  /** The last input entry with the key wins; without one the default stays. */
  lemma {:induction false} RenderedValueIsLastMatch(input: seq<KeyVal>, key: string, dflt: string)
    ensures (forall j :: 0 <= j < |input| ==> input[j].key != key) ==> RenderedValue(input, key, dflt) == dflt
    ensures (exists j :: 0 <= j < |input| && input[j].key == key) ==>
      exists j :: 0 <= j < |input| && input[j].key == key
        && RenderedValue(input, key, dflt) == input[j].value
        && forall k :: j < k < |input| ==> input[k].key != key
    decreases |input|
  {
    if |input| > 0 && input[|input| - 1].key != key {
      var init := input[..|input| - 1];
      RenderedValueIsLastMatch(init, key, dflt);
      if exists j :: 0 <= j < |input| && input[j].key == key {
        var j :| 0 <= j < |input| && input[j].key == key;
        assert init[j].key == key;
      }
    }
  }

  /** Once some input entry carries the key, the starting value no longer matters. */
  lemma {:induction false} RenderedValueIgnoresDefault(input: seq<KeyVal>, key: string, d1: string, d2: string)
    requires exists j :: 0 <= j < |input| && input[j].key == key
    ensures RenderedValue(input, key, d1) == RenderedValue(input, key, d2)
    decreases |input|
  {
    if input[|input| - 1].key != key {
      var j :| 0 <= j < |input| && input[j].key == key;
      assert input[..|input| - 1][j].key == key;
      RenderedValueIgnoresDefault(input[..|input| - 1], key, d1, d2);
    }
  }

  function RenderKeyVal(input: seq<KeyVal>, origin: KeyVal): KeyVal
  {
    origin.(value := RenderedValue(input, origin.key, origin.value))
  }

  /**
   * renderKeyVals(input, origin): exactly origin's parameters, in origin's
   * order, each keeping its key, type, credential flag and choices; only
   * the value may come from input. Keys only input has are dropped.
   */
  function RenderedKeyVals(input: seq<KeyVal>, origin: seq<KeyVal>): (r: seq<KeyVal>)
    ensures |r| == |origin|
    ensures forall i :: 0 <= i < |origin| ==>
      r[i].key == origin[i].key && r[i].kind == origin[i].kind
      && r[i].isCredential == origin[i].isCredential
      && r[i].choiceOption == origin[i].choiceOption
  {
    seq(|origin|, i requires 0 <= i < |origin| => RenderKeyVal(input, origin[i]))
  }

  method RenderKeyVals(input: seq<KeyVal>, origin: seq<KeyVal>) returns (resp: seq<KeyVal>)
    ensures resp == RenderedKeyVals(input, origin)
  {
    resp := [];
    var i := 0;
    while i < |origin|
      invariant 0 <= i <= |origin|
      invariant resp == RenderedKeyVals(input, origin[..i])
    {
      var item := origin[i];
      var j := 0;
      while j < |input|
        invariant 0 <= j <= |input|
        invariant item == origin[i].(value := RenderedValue(input[..j], origin[i].key, origin[i].value))
      {
        if input[j].key == origin[i].key {
          item := item.(value := input[j].value);
        }
        assert input[..j + 1][..j] == input[..j];
        j := j + 1;
      }
      assert input[..j] == input;
      resp := resp + [item];
      i := i + 1;
    }
    assert origin[..i] == origin;
  }

  /** Rendering with the same input twice changes nothing more. */
  lemma RenderKeyValsIdempotent(input: seq<KeyVal>, origin: seq<KeyVal>)
    ensures RenderedKeyVals(input, RenderedKeyVals(input, origin)) == RenderedKeyVals(input, origin)
  {
    var once := RenderedKeyVals(input, origin);
    forall i | 0 <= i < |origin|
      ensures RenderKeyVal(input, once[i]) == once[i]
    {
      var key := origin[i].key;
      if exists j :: 0 <= j < |input| && input[j].key == key {
        RenderedValueIgnoresDefault(input, key, once[i].value, origin[i].value);
      } else {
        RenderedValueIsLastMatch(input, key, once[i].value);
        RenderedValueIsLastMatch(input, key, origin[i].value);
      }
    }
  }

  /** With an input that names none of origin's keys, origin comes back unchanged. */
  lemma RenderKeyValsNoOverride(input: seq<KeyVal>, origin: seq<KeyVal>)
    requires forall i, j :: 0 <= i < |origin| && 0 <= j < |input| ==> input[j].key != origin[i].key
    ensures RenderedKeyVals(input, origin) == origin
  {
    forall i | 0 <= i < |origin|
      ensures RenderKeyVal(input, origin[i]) == origin[i]
    {
      RenderedValueIsLastMatch(input, origin[i].key, origin[i].value);
    }
  }

  // =====================================================================
  // mergeRepos: the template's repositories, with branch settings from
  // the custom repositories of the same source, namespace and name

  /** An empty namespace is taken to be the owner. */
  function DefaultNamespace(r: Repository): (d: Repository)
    ensures d.repoNamespace != "" || d.repoOwner == ""
    ensures d == r.(repoNamespace := d.repoNamespace)
  {
    if r.repoNamespace == "" then r.(repoNamespace := r.repoOwner) else r
  }

  function RepoKey(r: Repository): string
  {
    r.source + "/" + r.repoNamespace + "/" + r.repoName
  }

  /** The custom repositories by key, each key holding the last custom repository with it. */
  function CustomRepoMap(custom: seq<Repository>): map<string, Repository>
  {
    if |custom| == 0 then map[]
    else
      var last := DefaultNamespace(custom[|custom| - 1]);
      CustomRepoMap(custom[..|custom| - 1])[RepoKey(last) := last]
  }

  /** The position of the last custom repository with the key. */
  function LastKeyIndex(custom: seq<Repository>, key: string): (r: Option<nat>)
    ensures r.Some? ==> (r.value < |custom| && RepoKey(DefaultNamespace(custom[r.value])) == key
      && forall k :: r.value < k < |custom| ==> RepoKey(DefaultNamespace(custom[k])) != key)
    ensures r.None? ==> forall k :: 0 <= k < |custom| ==> RepoKey(DefaultNamespace(custom[k])) != key
  {
    if |custom| == 0 then None
    else if RepoKey(DefaultNamespace(custom[|custom| - 1])) == key then Some(|custom| - 1)
    else LastKeyIndex(custom[..|custom| - 1], key)
  }

  /** The map holds a key exactly when some custom repository has it, and then the last one. */
  lemma {:induction false} CustomRepoMapLastWins(custom: seq<Repository>, key: string)
    ensures key in CustomRepoMap(custom) <==> LastKeyIndex(custom, key).Some?
    ensures key in CustomRepoMap(custom) ==>
      CustomRepoMap(custom)[key] == DefaultNamespace(custom[LastKeyIndex(custom, key).value])
    decreases |custom|
  {
    if |custom| > 0 {
      var init := custom[..|custom| - 1];
      CustomRepoMapLastWins(init, key);
      if LastKeyIndex(init, key).Some? {
        assert init[LastKeyIndex(init, key).value] == custom[LastKeyIndex(init, key).value];
      }
    }
  }

  /** One template repository after merging: only the branch settings can change. */
  function MergeRepo(template: Repository, customs: map<string, Repository>): (r: Repository)
    ensures r == DefaultNamespace(template).(branch := r.branch, tag := r.tag, pr := r.pr,
                                             prs := r.prs, filterRegexp := r.filterRegexp)
  {
    var t := DefaultNamespace(template);
    if RepoKey(t) in customs then
      var c := customs[RepoKey(t)];
      t.(branch := c.branch, tag := c.tag, pr := c.pr, prs := c.prs, filterRegexp := c.filterRegexp)
    else t
  }

  /** mergeRepos(template, custom): the template list, same length and order, merged repo by repo. */
  function MergedRepos(template: seq<Repository>, custom: seq<Repository>): (r: seq<Repository>)
    ensures |r| == |template|
  {
    var m := CustomRepoMap(custom);
    seq(|template|, i requires 0 <= i < |template| => MergeRepo(template[i], m))
  }

  method MergeRepos(template: seq<Repository>, custom: seq<Repository>) returns (merged: seq<Repository>)
    ensures merged == MergedRepos(template, custom)
  {
    var customMap: map<string, Repository> := map[];
    var i := 0;
    while i < |custom|
      invariant 0 <= i <= |custom|
      invariant customMap == CustomRepoMap(custom[..i])
    {
      var repo := custom[i];
      if repo.repoNamespace == "" {
        repo := repo.(repoNamespace := repo.repoOwner);
      }
      customMap := customMap[RepoKey(repo) := repo];
      assert custom[..i + 1][..i] == custom[..i];
      i := i + 1;
    }
    assert custom[..i] == custom;
    merged := [];
    i := 0;
    while i < |template|
      invariant 0 <= i <= |template|
      invariant |merged| == i
      invariant forall k :: 0 <= k < i ==> merged[k] == MergeRepo(template[k], customMap)
    {
      var repo := template[i];
      if repo.repoNamespace == "" {
        repo := repo.(repoNamespace := repo.repoOwner);
      }
      if RepoKey(repo) in customMap {
        var cv := customMap[RepoKey(repo)];
        repo := repo.(branch := cv.branch, tag := cv.tag, pr := cv.pr, prs := cv.prs,
                      filterRegexp := cv.filterRegexp);
      }
      merged := merged + [repo];
      i := i + 1;
    }
  }

  /**
   * A template repository whose key some custom repository shares takes
   * the branch settings of the last such custom repository; any other
   * keeps its own, apart from the defaulted namespace.
   */
  lemma MergedReposTakeLastCustom(template: seq<Repository>, custom: seq<Repository>, i: nat)
    requires i < |template|
    ensures var t := DefaultNamespace(template[i]);
      var r := MergedRepos(template, custom)[i];
      match LastKeyIndex(custom, RepoKey(t))
      case None => r == t
      case Some(j) => r == t.(branch := custom[j].branch, tag := custom[j].tag, pr := custom[j].pr,
                              prs := custom[j].prs, filterRegexp := custom[j].filterRegexp)
  {
    CustomRepoMapLastWins(custom, RepoKey(DefaultNamespace(template[i])));
  }

  /** Merging the same custom repositories a second time changes nothing. */
  lemma MergeReposIdempotent(template: seq<Repository>, custom: seq<Repository>)
    ensures MergedRepos(MergedRepos(template, custom), custom) == MergedRepos(template, custom)
  {
    var once := MergedRepos(template, custom);
    var m := CustomRepoMap(custom);
    forall i | 0 <= i < |template|
      ensures MergeRepo(once[i], m) == once[i]
    {
      var t := DefaultNamespace(template[i]);
      assert DefaultNamespace(once[i]) == once[i];
      assert RepoKey(once[i]) == RepoKey(t);
    }
  }

  // =====================================================================
  // renderEnv: os.Expand with a lookup in the job's parameters

  predicate IsShellSpecialVar(c: char)
  {
    c in "*#$@!?-0123456789"
  }

  predicate IsAlphaNum(c: char)
  {
    c == '_' || '0' <= c <= '9' || 'a' <= c <= 'z' || 'A' <= c <= 'Z'
  }

  /** Length of the longest prefix of letters, digits and underscores. */
  function AlphaNumPrefix(s: string): (n: nat)
    ensures n <= |s|
    ensures forall i :: 0 <= i < n ==> IsAlphaNum(s[i])
    ensures n < |s| ==> !IsAlphaNum(s[n])
  {
    if |s| > 0 && IsAlphaNum(s[0]) then 1 + AlphaNumPrefix(s[1..]) else 0
  }

  /** Index of the first '}' at or after `i`, or |s| when there is none. */
  function CloseBrace(s: string, i: nat): (n: nat)
    requires i <= |s|
    ensures i <= n <= |s|
    ensures n < |s| ==> s[n] == '}'
    ensures forall k :: i <= k < n ==> s[k] != '}'
    decreases |s| - i
  {
    if i == |s| then |s| else if s[i] == '}' then i else CloseBrace(s, i + 1)
  }

  /**
   * The variable name that follows a '$' and the number of characters it
   * spans (os's getShellName); an empty name with a positive width is bad
   * syntax that Expand swallows.
   */
  function ShellName(s: string): (r: (string, nat))
    requires |s| > 0
    ensures r.1 <= |s|
  {
    if s[0] == '{' then
      if |s| > 2 && IsShellSpecialVar(s[1]) && s[2] == '}' then (s[1..2], 3)
      else
        var c := CloseBrace(s, 1);
        if c == |s| then ("", 1)
        else if c == 1 then ("", 2)
        else (s[1..c], c + 1)
    else if IsShellSpecialVar(s[0]) then (s[..1], 1)
    else
      var n := AlphaNumPrefix(s);
      (s[..n], n)
  }

  /** renderEnv's mapper: the first parameter with the name, or "$name" when none has it. */
  function EnvLookup(name: string, kvs: seq<KeyVal>): string
  {
    if |kvs| == 0 then "$" + name
    else if kvs[0].key == name then kvs[0].value
    else EnvLookup(name, kvs[1..])
  }

  lemma {:induction false} EnvLookupFirstMatch(name: string, kvs: seq<KeyVal>)
    ensures (forall j :: 0 <= j < |kvs| ==> kvs[j].key != name) ==> EnvLookup(name, kvs) == "$" + name
    ensures forall j :: (0 <= j < |kvs| && kvs[j].key == name
      && forall k :: 0 <= k < j ==> kvs[k].key != name) ==> EnvLookup(name, kvs) == kvs[j].value
    decreases |kvs|
  {
    if |kvs| > 0 {
      EnvLookupFirstMatch(name, kvs[1..]);
      forall j | 0 <= j < |kvs| && kvs[j].key == name && (forall k :: 0 <= k < j ==> kvs[k].key != name)
        ensures EnvLookup(name, kvs) == kvs[j].value
      {
        if j > 0 {
          assert kvs[1..][j - 1] == kvs[j];
          assert forall k :: 0 <= k < j - 1 ==> kvs[1..][k].key != name by {
            forall k | 0 <= k < j - 1 ensures kvs[1..][k].key != name {
              assert kvs[1..][k] == kvs[k + 1];
            }
          }
        }
      }
      if forall j :: 0 <= j < |kvs| ==> kvs[j].key != name {
        assert forall j :: 0 <= j < |kvs| - 1 ==> kvs[1..][j].key != name by {
          forall j | 0 <= j < |kvs| - 1 ensures kvs[1..][j].key != name {
            assert kvs[1..][j] == kvs[j + 1];
          }
        }
      }
    }
  }

  /** os.Expand(data, mapper): every $name and ${name} replaced through the mapper. */
  function Expand(s: string, kvs: seq<KeyVal>): string
    decreases |s|
  {
    if |s| == 0 then ""
    else if s[0] == '$' && |s| > 1 then
      var nw := ShellName(s[1..]);
      var piece :=
        if nw.0 == "" && nw.1 > 0 then ""
        else if nw.0 == "" then "$"
        else EnvLookup(nw.0, kvs);
      piece + Expand(s[1 + nw.1..], kvs)
    else [s[0]] + Expand(s[1..], kvs)
  }

  /** renderEnv of a text without '$' is the text itself. */
  lemma {:induction false} ExpandWithoutDollar(s: string, kvs: seq<KeyVal>)
    requires '$' !in s
    ensures Expand(s, kvs) == s
    decreases |s|
  {
    if |s| > 0 {
      ExpandWithoutDollar(s[1..], kvs);
    }
  }

  /** "${KEY}" renders to the value of the first parameter named KEY (or to "$KEY"). */
  lemma ExpandBraced(key: string, kvs: seq<KeyVal>)
    requires key != "" && '}' !in key
    ensures Expand("${" + key + "}", kvs) == EnvLookup(key, kvs)
  {
    var s := "${" + key + "}";
    var t := s[1..];
    assert t == "{" + key + "}";
    var nw := ShellName(t);
    if |t| > 2 && IsShellSpecialVar(t[1]) && t[2] == '}' {
      assert |key| == 1 && nw.0 == key && nw.1 == 3;
    } else {
      var c := CloseBrace(t, 1);
      assert t[|key| + 1] == '}';
      assert forall k :: 1 <= k <= |key| ==> t[k] == key[k - 1];
      assert c == |key| + 1;
      assert t[1..c] == key;
    }
    assert s[1 + nw.1..] == "";
  }

  /** "$KEY" with KEY made of letters, digits and '_' (not starting with a digit) renders through the lookup. */
  lemma ExpandPlain(key: string, kvs: seq<KeyVal>)
    requires key != "" && !IsShellSpecialVar(key[0]) && key[0] != '{'
    requires forall i :: 0 <= i < |key| ==> IsAlphaNum(key[i])
    ensures Expand("$" + key, kvs) == EnvLookup(key, kvs)
  {
    var s := "$" + key;
    assert s[1..] == key;
    assert AlphaNumPrefix(key) == |key|;
    assert key[..|key|] == key;
    assert s[1 + |key|..] == "";
  }

  // =====================================================================
  // renderRepos: the repositories the git step clones

  predicate SameRepo(a: Repository, b: Repository)
  {
    a.repoName == b.repoName && a.repoOwner == b.repoOwner
  }

  /** One rendering of a job's repository: checkout path expanded, an empty remote named "origin". */
  function RenderRepo(r: Repository, kvs: seq<KeyVal>): (out: Repository)
    ensures out.remoteName != ""
    ensures r.remoteName != "" ==> out.remoteName == r.remoteName
    ensures out.(checkoutPath := "", remoteName := "") == r.(checkoutPath := "", remoteName := "")
  {
    r.(checkoutPath := Expand(r.checkoutPath, kvs),
       remoteName := if r.remoteName == "" then "origin" else r.remoteName)
  }

  /** A repository rendered `n` times over. */
  function RenderRepoTimes(r: Repository, n: nat, kvs: seq<KeyVal>): (out: Repository)
    ensures out.repoName == r.repoName && out.repoOwner == r.repoOwner
  {
    if n == 0 then r else RenderRepo(RenderRepoTimes(r, n - 1, kvs), kvs)
  }

  /** How many of the template's repositories name the same repository as `r`. */
  function MatchCount(origin: seq<Repository>, r: Repository): nat
  {
    if |origin| == 0 then 0
    else MatchCount(origin[..|origin| - 1], r) + (if SameRepo(origin[|origin| - 1], r) then 1 else 0)
  }

  function RenderIfSame(o: Repository, r: Repository, kvs: seq<KeyVal>): Repository
  {
    if SameRepo(o, r) then RenderRepo(r, kvs) else r
  }

  lemma MatchCountStep(origin: seq<Repository>, i: nat, r: Repository)
    requires i < |origin|
    ensures MatchCount(origin[..i + 1], r)
         == MatchCount(origin[..i], r) + (if SameRepo(origin[i], r) then 1 else 0)
  {
    assert origin[..i + 1][..i] == origin[..i];
  }

  /** The position of the last job repository naming the same repository as `o`. */
  function LastMatch(input: seq<Repository>, o: Repository): (r: Option<nat>)
    ensures r.Some? ==> (r.value < |input| && SameRepo(o, input[r.value])
      && forall k :: r.value < k < |input| ==> !SameRepo(o, input[k]))
    ensures r.None? ==> forall k :: 0 <= k < |input| ==> !SameRepo(o, input[k])
  {
    if |input| == 0 then None
    else if SameRepo(o, input[|input| - 1]) then Some(|input| - 1)
    else LastMatch(input[..|input| - 1], o)
  }

  /** Only the names of the job repositories decide where the last match is. */
  lemma {:induction false} LastMatchByName(a: seq<Repository>, b: seq<Repository>, o: Repository)
    requires |a| == |b|
    requires forall k :: 0 <= k < |a| ==>
      a[k].repoName == b[k].repoName && a[k].repoOwner == b[k].repoOwner
    ensures LastMatch(a, o) == LastMatch(b, o)
    decreases |a|
  {
    if |a| > 0 {
      LastMatchByName(a[..|a| - 1], b[..|b| - 1], o);
    }
  }

  /** The job repositories after one pass for template repository `o`. */
  function PassRendered(rs: seq<Repository>, o: Repository, kvs: seq<KeyVal>): (out: seq<Repository>)
    ensures |out| == |rs|
  {
    seq(|rs|, m requires 0 <= m < |rs| => RenderIfSame(o, rs[m], kvs))
  }

  /** The job repositories after passes for every template repository in `origin`. */
  function RenderedAfter(before: seq<Repository>, origin: seq<Repository>, kvs: seq<KeyVal>): (out: seq<Repository>)
    ensures |out| == |before|
    ensures forall j :: 0 <= j < |before| ==>
      out[j].repoName == before[j].repoName && out[j].repoOwner == before[j].repoOwner
  {
    seq(|before|, j requires 0 <= j < |before| =>
      RenderRepoTimes(before[j], MatchCount(origin, before[j]), kvs))
  }

  /** One more pass extends the passes made so far by the next template repository. */
  lemma RenderedAfterStep(before: seq<Repository>, origin: seq<Repository>, i: nat, kvs: seq<KeyVal>)
    requires i < |origin|
    ensures PassRendered(RenderedAfter(before, origin[..i], kvs), origin[i], kvs)
         == RenderedAfter(before, origin[..i + 1], kvs)
  {
    var p := RenderedAfter(before, origin[..i], kvs);
    forall m | 0 <= m < |before|
      ensures PassRendered(p, origin[i], kvs)[m] == RenderedAfter(before, origin[..i + 1], kvs)[m]
    {
      MatchCountStep(origin, i, before[m]);
    }
  }

  /**
   * One pass of renderRepos over the job's repositories for template
   * repository `o`: each job repository naming it is rendered in place, and
   * the last of them is the one the slot refers to.
   */
  method RenderPass(input: array<Repository>, o: Repository, kvs: seq<KeyVal>)
    returns (slot: Option<nat>)
    modifies input
    ensures input[..] == PassRendered(old(input[..]), o, kvs)
    ensures slot == LastMatch(old(input[..]), o)
  {
    ghost var pass := input[..];
    slot := None;
    var j := 0;
    while j < input.Length
      invariant 0 <= j <= input.Length
      invariant forall m :: 0 <= m < j ==> input[m] == RenderIfSame(o, pass[m], kvs)
      invariant forall m :: j <= m < input.Length ==> input[m] == pass[m]
      invariant slot == LastMatch(pass[..j], o)
    {
      LastMatchSnoc(pass, j, o);
      var hit := RenderAt(input, j, o, kvs);
      if hit {
        slot := Some(j);
      }
      j := j + 1;
    }
    assert pass[..j] == pass;
  }

  /** Render the job repository at `j` in place when it names the same repository as `o`. */
  method RenderAt(input: array<Repository>, j: nat, o: Repository, kvs: seq<KeyVal>) returns (hit: bool)
    requires j < input.Length
    modifies input
    ensures hit == SameRepo(o, old(input[j]))
    ensures input[j] == RenderIfSame(o, old(input[j]), kvs)
    ensures forall m :: 0 <= m < input.Length && m != j ==> input[m] == old(input[m])
  {
    hit := SameRepo(o, input[j]);
    if hit {
      input[j] := RenderRepo(input[j], kvs);
    }
  }

  lemma LastMatchSnoc(s: seq<Repository>, j: nat, o: Repository)
    requires j < |s|
    ensures LastMatch(s[..j + 1], o) == if SameRepo(o, s[j]) then Some(j) else LastMatch(s[..j], o)
  {
    assert s[..j + 1][..j] == s[..j];
  }

  /** For each template repository, the position of the last job repository naming it. */
  function LastMatches(input: seq<Repository>, origin: seq<Repository>): (r: seq<Option<nat>>)
    ensures |r| == |origin|
    ensures forall k :: 0 <= k < |origin| ==> r[k] == LastMatch(input, origin[k])
  {
    seq(|origin|, k requires 0 <= k < |origin| => LastMatch(input, origin[k]))
  }

  lemma LastMatchesSnoc(input: seq<Repository>, origin: seq<Repository>, i: nat)
    requires i < |origin|
    ensures LastMatches(input, origin[..i + 1]) == LastMatches(input, origin[..i]) + [LastMatch(input, origin[i])]
  {
  }

  /** The slots renderRepos returns, from the job repositories before rendering. */
  function RenderedSlots(before: seq<Repository>, origin: seq<Repository>, kvs: seq<KeyVal>): (out: seq<Repository>)
    ensures |out| == |origin|
  {
    var after := RenderedAfter(before, origin, kvs);
    seq(|origin|, i requires 0 <= i < |origin| =>
      match LastMatch(before, origin[i])
      case Some(m) => after[m]
      case None => origin[i])
  }

  /**
   * renderRepos(input, origin, kvs). The job's repositories (`input`) are
   * records shared by reference: each is rendered in place once for every
   * template repository naming it, and every slot that refers to it sees
   * its final state. Slot i holds origin[i] when no job repository names
   * the same repository, and otherwise the last job repository that does.
   */
  method RenderRepos(input: array<Repository>, origin: seq<Repository>, kvs: seq<KeyVal>)
    returns (resp: seq<Repository>)
    modifies input
    ensures |resp| == |origin|
    ensures forall j :: 0 <= j < input.Length ==>
      input[j] == RenderRepoTimes(old(input[j]), MatchCount(origin, old(input[j])), kvs)
    ensures forall i :: 0 <= i < |origin| ==>
      var m := LastMatch(old(input[..]), origin[i]);
      resp[i] == if m.Some? then input[m.value] else origin[i]
    ensures input[..] == RenderedAfter(old(input[..]), origin, kvs)
    ensures resp == RenderedSlots(old(input[..]), origin, kvs)
  {
    ghost var before := input[..];
    var slots: seq<Option<nat>> := [];
    var i := 0;
    assert origin[..0] == [];
    while i < |origin|
      invariant 0 <= i <= |origin|
      invariant |slots| == i
      invariant input[..] == RenderedAfter(before, origin[..i], kvs)
      invariant slots == LastMatches(before, origin[..i])
    {
      LastMatchByName(input[..], before, origin[i]);
      var slot := RenderPass(input, origin[i], kvs);
      RenderedAfterStep(before, origin, i, kvs);
      LastMatchesSnoc(before, origin, i);
      slots := slots + [slot];
      i := i + 1;
    }
    assert origin[..i] == origin;
    var after := input[..];
    resp := seq(|origin|, k requires 0 <= k < |origin| =>
      if slots[k].Some? then after[slots[k].value] else origin[k]);
  }

  /** A job repository that exactly one template repository names is rendered exactly once. */
  lemma RenderedOnceWhenMatchedOnce(r: Repository, origin: seq<Repository>, kvs: seq<KeyVal>)
    requires MatchCount(origin, r) == 1
    ensures RenderRepoTimes(r, MatchCount(origin, r), kvs) == RenderRepo(r, kvs)
  {
  }

  lemma ExpandExampleA(kvs: seq<KeyVal>)
    requires kvs == [KeyVal("A", "$B", "", false, []), KeyVal("B", "x", "", false, [])]
    ensures Expand("$A", kvs) == "$B"
  {
    ExpandPlain("A", kvs);
    assert "$A" == "$" + "A";
  }

  lemma ExpandExampleB(kvs: seq<KeyVal>)
    requires kvs == [KeyVal("A", "$B", "", false, []), KeyVal("B", "x", "", false, [])]
    ensures Expand("$B", kvs) == "x"
  {
    ExpandPlain("B", kvs);
    assert "$B" == "$" + "B";
  }

  /**
   * Two template entries for the same repository render the shared job
   * repository twice: a checkout path whose first expansion yields another
   * variable is expanded again.
   */
  lemma DoubleRenderExample()
    ensures var kvs := [KeyVal("A", "$B", "", false, []), KeyVal("B", "x", "", false, [])];
      var r := Repository("", "o", "", "n", "", "", 0, [], "", "$A", "", "", "", "", false);
      RenderRepoTimes(r, 2, kvs).checkoutPath == "x"
      && RenderRepo(r, kvs).checkoutPath == "$B"
  {
    var kvs := [KeyVal("A", "$B", "", false, []), KeyVal("B", "x", "", false, [])];
    var r := Repository("", "o", "", "n", "", "", 0, [], "", "$A", "", "", "", "", false);
    ExpandExampleA(kvs);
    ExpandExampleB(kvs);
    var once := RenderRepo(r, kvs);
    assert RenderRepoTimes(r, 2, kvs) == RenderRepo(once, kvs);
  }

  // =====================================================================
  // replaceWrapLine: Windows and old-Mac line ends become "\n"

  function ReplaceWrapLine(script: string): string
  {
    ReplaceAll(ReplaceAll(script, "\r\n", "\n"), "\r", "\n")
  }

  lemma ReplaceWrapLineRemovesCR(script: string)
    ensures '\r' !in ReplaceWrapLine(script)
  {
    ReplaceAllRemovesChar(ReplaceAll(script, "\r\n", "\n"), '\r', "\n");
  }

  lemma ReplaceWrapLineKeepsPlain(script: string)
    requires '\r' !in script
    ensures ReplaceWrapLine(script) == script
  {
    ReplaceAllAbsent(script, "\r\n", "\n");
    ReplaceAllAbsent(script, "\r", "\n");
  }

  lemma ReplaceWrapLineIdempotent(script: string)
    ensures ReplaceWrapLine(ReplaceWrapLine(script)) == ReplaceWrapLine(script)
  {
    ReplaceWrapLineRemovesCR(script);
    ReplaceWrapLineKeepsPlain(ReplaceWrapLine(script));
  }

  // =====================================================================
  // ensureBuildInOutputs: the outputs every build publishes

  function OutputNames(outputs: seq<Output>): set<string>
  {
    set o | o in outputs :: o.name
  }

  /** The required names not in `present`, in the required order. */
  function MissingOutputs(required: seq<string>, present: set<string>): (r: seq<Output>)
    ensures forall o :: o in r ==> o.name in required && o.name !in present
    ensures forall n :: n in required && n !in present ==> Output(n) in r
  {
    if |required| == 0 then []
    else (if required[0] in present then [] else [Output(required[0])])
         + MissingOutputs(required[1..], present)
  }

  /** The outputs followed by each required output that was not already there. */
  function WithRequiredOutputs(outputs: seq<Output>, required: seq<string>): seq<Output>
  {
    outputs + MissingOutputs(required, OutputNames(outputs))
  }

  lemma WithRequiredOutputsComplete(outputs: seq<Output>, required: seq<string>)
    ensures var r := WithRequiredOutputs(outputs, required);
      r[..|outputs|] == outputs
      && (forall n :: n in required ==> n in OutputNames(r))
      && (forall o :: o in r[|outputs|..] ==> o.name in required && o.name !in OutputNames(outputs))
  {
    var r := WithRequiredOutputs(outputs, required);
    forall n | n in required
      ensures n in OutputNames(r)
    {
      if n !in OutputNames(outputs) {
        assert Output(n) in r;
      } else {
        var o :| o in outputs && o.name == n;
        assert o in r;
      }
    }
  }

  lemma {:induction false} MissingOutputsNone(required: seq<string>, present: set<string>)
    requires forall n :: n in required ==> n in present
    ensures MissingOutputs(required, present) == []
    decreases |required|
  {
    if |required| > 0 {
      MissingOutputsNone(required[1..], present);
    }
  }

  /** Ensuring the required outputs twice equals ensuring them once. */
  lemma WithRequiredOutputsIdempotent(outputs: seq<Output>, required: seq<string>)
    ensures WithRequiredOutputs(WithRequiredOutputs(outputs, required), required)
         == WithRequiredOutputs(outputs, required)
  {
    var r := WithRequiredOutputs(outputs, required);
    WithRequiredOutputsComplete(outputs, required);
    MissingOutputsNone(required, OutputNames(r));
  }

  /** The names of the outputs, collected one by one. */
  method OutputKeys(outputs: seq<Output>) returns (keyMap: set<string>)
    ensures keyMap == OutputNames(outputs)
  {
    keyMap := {};
    var i := 0;
    while i < |outputs|
      invariant 0 <= i <= |outputs|
      invariant keyMap == OutputNames(outputs[..i])
    {
      keyMap := keyMap + {outputs[i].name};
      assert outputs[..i + 1] == outputs[..i] + [outputs[i]];
      i := i + 1;
    }
    assert outputs[..i] == outputs;
  }

  lemma MissingOfThree(a: string, b: string, c: string, present: set<string>)
    ensures MissingOutputs([a, b, c], present)
         == (if a in present then [] else [Output(a)])
            + ((if b in present then [] else [Output(b)]) + (if c in present then [] else [Output(c)]))
  {
    assert [a, b, c][1..] == [b, c] && [b, c][1..] == [c] && [c][1..] == [];
    assert MissingOutputs([c], present) == (if c in present then [] else [Output(c)]) + [];
    assert MissingOutputs([b, c], present)
        == (if b in present then [] else [Output(b)]) + MissingOutputs([c], present);
  }

  method EnsureBuildInOutputs(outputs: seq<Output>) returns (r: seq<Output>)
    ensures r == WithRequiredOutputs(outputs, [ImageKey, ImageTagKey, PkgFileKey])
  {
    var keyMap := OutputKeys(outputs);
    ghost var m1 := if ImageKey in keyMap then [] else [Output(ImageKey)];
    ghost var m2 := if ImageTagKey in keyMap then [] else [Output(ImageTagKey)];
    ghost var m3 := if PkgFileKey in keyMap then [] else [Output(PkgFileKey)];
    MissingOfThree(ImageKey, ImageTagKey, PkgFileKey, keyMap);
    r := outputs;
    if ImageKey !in keyMap {
      r := r + [Output(ImageKey)];
    }
    if ImageTagKey !in keyMap {
      r := r + [Output(ImageTagKey)];
    }
    if PkgFileKey !in keyMap {
      r := r + [Output(PkgFileKey)];
    }
    AppendAssoc(m1, m2, m3);
    AppendAssoc(outputs, m1 + m2, m3);
    AppendAssoc(outputs, m1, m2);
  }
}

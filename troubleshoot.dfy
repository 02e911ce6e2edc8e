/** The call-log triage of the `agent troubleshoot` command
    (cli/internal/troubleshoot/troubleshoot.go): discovering recent calls in the
    engine's log text, selecting and filtering one call's lines, classifying them, and
    rendering the findings report. The `docker logs` output and the clock readings are
    inputs; console colours are not modelled. */
module Troubleshoot {
  import opened Wrappers
  import opened Text

  // ===========================================================================
  // Records

  /** A call found in the log (Go `Call`); `timestamp` is in nanoseconds. */
  datatype Call = Call(id: string, timestamp: int, duration: string, status: string, channel: string)

  /** Result of the classification pass (Go `Analysis`). */
  datatype Analysis = Analysis(
    callId: string,
    errors: seq<string>,
    warnings: seq<string>,
    audioIssues: seq<string>,
    metrics: map<string, string>,
    hasAudioSocket: bool,
    hasTranscription: bool,
    hasPlayback: bool,
    symptom: string)

  /** Command-line switches of the troubleshoot command (Go `Runner` fields). */
  datatype Options = Options(
    callId: string, symptom: string, interactive: bool, collectOnly: bool,
    noLLM: bool, list: bool, verbose: bool)

  /** Output of the two `docker logs` invocations: the last 24 hours (discovery) and
      the last hour (collection). `Failure` carries the text of the exec error. */
  datatype DockerLogs = DockerLogs(since24h: Result<string, string>, since1h: Result<string, string>)

  /** What a successful run produced. */
  datatype RunOutcome =
    | Listed(calls: seq<Call>, report: seq<string>)
    | Collected(callId: string, callLogs: string)
    | Analyzed(callId: string, analysis: Analysis, report: seq<string>)

  function Min(a: int, b: int): int { if a <= b then a else b }

  // ===========================================================================
  // Sequence helpers: filtering and subsequences

  /** Equal texts chain. */
  lemma SameText(a: string, b: string, c: string)
    requires a == b && b == c
    ensures a == c
  {
  }

  /** The elements of `xs` that satisfy `p`, in their original order. */
  function Keep<T>(xs: seq<T>, p: T -> bool): (r: seq<T>)
    ensures |r| <= |xs|
  {
    if xs == [] then []
    else Keep(xs[..|xs| - 1], p) + (if p(xs[|xs| - 1]) then [xs[|xs| - 1]] else [])
  }

  /** `f` lists, in increasing order, the positions of `b` at which the elements of `a`
      are found. */
  ghost predicate Embeds<T>(a: seq<T>, b: seq<T>, f: seq<nat>)
  {
    && |f| == |a|
    && (forall i :: 0 <= i < |f| ==> f[i] < |b| && a[i] == b[f[i]])
    && (forall i, j :: 0 <= i < j < |f| ==> f[i] < f[j])
  }

  ghost predicate IsSubsequence<T>(a: seq<T>, b: seq<T>)
  {
    exists f :: Embeds(a, b, f)
  }

  /** An element is kept exactly when it occurs in the input and satisfies the test. */
  lemma {:induction false} KeepMembers<T>(xs: seq<T>, p: T -> bool, x: T)
    ensures x in Keep(xs, p) <==> x in xs && p(x)
  {
    if xs != [] {
      var init := xs[..|xs| - 1];
      KeepMembers(init, p, x);
      assert xs == init + [xs[|xs| - 1]];
    }
  }

  /** Filtering keeps the order of the input: the result is a subsequence of it. */
  lemma {:induction false} KeepIsSubsequence<T>(xs: seq<T>, p: T -> bool)
    ensures IsSubsequence(Keep(xs, p), xs)
  {
    if xs == [] {
      assert Embeds(Keep(xs, p), xs, []);
    } else {
      var n := |xs| - 1;
      var init, x := xs[..n], xs[n];
      assert xs == init + [x];
      KeepIsSubsequence(init, p);
      var f :| Embeds(Keep(init, p), init, f);
      if p(x) {
        assert Keep(xs, p) == Keep(init, p) + [x];
        EmbedsExtend(Keep(init, p), init, f, x);
        assert Embeds(Keep(xs, p), xs, f + [n]);
      } else {
        assert Keep(xs, p) == Keep(init, p);
        EmbedsGrow(Keep(init, p), init, f, x);
        assert Embeds(Keep(xs, p), xs, f);
      }
    }
  }

  /** An embedding extends by one matching element at the end of both sides. */
  lemma EmbedsExtend<T>(a: seq<T>, b: seq<T>, f: seq<nat>, x: T)
    requires Embeds(a, b, f)
    ensures Embeds(a + [x], b + [x], f + [|b|])
  {
    var g := f + [|b|];
    forall i | 0 <= i < |g| ensures g[i] < |b| + 1 && (a + [x])[i] == (b + [x])[g[i]] {
      if i < |f| {
        assert g[i] == f[i];
      }
    }
  }

  /** An embedding into `b` is also one into `b` with more elements at its end. */
  lemma EmbedsGrow<T>(a: seq<T>, b: seq<T>, f: seq<nat>, x: T)
    requires Embeds(a, b, f)
    ensures Embeds(a, b + [x], f)
  {
    forall i | 0 <= i < |f| ensures (b + [x])[f[i]] == b[f[i]] {
    }
  }

  /** Filtering a filtered sequence again by the same test changes nothing. */
  lemma {:induction false} KeepIdempotent<T>(xs: seq<T>, p: T -> bool)
    ensures Keep(Keep(xs, p), p) == Keep(xs, p)
  {
    if xs != [] {
      var n := |xs| - 1;
      KeepIdempotent(xs[..n], p);
      var k := Keep(xs[..n], p);
      if p(xs[n]) {
        var kx := k + [xs[n]];
        assert Keep(xs, p) == kx;
        assert kx[..|kx| - 1] == k && kx[|kx| - 1] == xs[n];
      } else {
        assert Keep(xs, p) == k + [] == k;
      }
    }
  }

  // ===========================================================================
  // Call discovery (getRecentCalls)

  const CallIdLabel := "call_id"

  /** `id` has the shape `[0-9]+\.[0-9]+`, with its dot at position `p`. */
  predicate DotAt(id: string, p: int)
  {
    && 0 < p < |id| - 1 && id[p] == '.'
    && forall k :: 0 <= k < |id| && k != p ==> IsDigit(id[k])
  }

  predicate IsCallId(id: string)
  {
    exists p :: 0 < p < |id| - 1 && DotAt(id, p)
  }

  /** `call_id=` or `call_id:` starts at index `i` of `s`. */
  predicate LabelAt(s: string, i: int)
  {
    0 <= i && i + 8 <= |s| && s[i..i + 7] == CallIdLabel && (s[i + 7] == '=' || s[i + 7] == ':')
  }

  /** The pattern `call_id[=:][\s]*([0-9]+\.[0-9]+)` matches `s[i..e]`, with the spaces
      in `s[i + 8..j]`, the captured group in `s[j..e]` and its dot at `p`. */
  predicate MatchesAt(s: string, i: int, j: int, p: int, e: int)
  {
    && LabelAt(s, i) && i + 8 <= j < p && p + 1 < e <= |s|
    && (forall k :: i + 8 <= k < j ==> IsRegexSpace(s[k]))
    && (forall k :: j <= k < p ==> IsDigit(s[k]))
    && s[p] == '.'
    && (forall k :: p < k < e ==> IsDigit(s[k]))
  }

  /** The end of the run of decimal digits that starts at index `i` of `s`. */
  function DigitsEnd(s: string, i: nat): (e: nat)
    requires i <= |s|
    ensures i <= e <= |s| && (e == |s| || !IsDigit(s[e]))
    ensures forall k :: i <= k < e ==> IsDigit(s[k])
    decreases |s| - i
  {
    if i < |s| && IsDigit(s[i]) then DigitsEnd(s, i + 1) else i
  }

  /** The end of the run of regular-expression spaces that starts at index `i` of `s`. */
  function SpacesEnd(s: string, i: nat): (e: nat)
    requires i <= |s|
    ensures i <= e <= |s| && (e == |s| || !IsRegexSpace(s[e]))
    ensures forall k :: i <= k < e ==> IsRegexSpace(s[k])
    decreases |s| - i
  {
    if i < |s| && IsRegexSpace(s[i]) then SpacesEnd(s, i + 1) else i
  }

  /** The capture of a match of the call-id pattern that starts at index `i`, with
      every quantifier greedy; `None` when the pattern cannot match there. */
  function CaptureFrom(s: string, i: nat): Option<string>
  {
    if !LabelAt(s, i) then None
    else
      var j := SpacesEnd(s, i + 8);
      var p := DigitsEnd(s, j);
      if p == j || p >= |s| || s[p] != '.' then None
      else
        var e := DigitsEnd(s, p + 1);
        if e == p + 1 then None else Some(s[j..e])
  }

  /** The capture is sound and complete for the pattern at `i`: a capture comes from a
      match whose second digit run cannot be extended, and there is no capture only when
      no match starts at `i`. */
  lemma CaptureFromSpec(s: string, i: nat)
    ensures var r := CaptureFrom(s, i);
      && (r.Some? ==>
            && IsCallId(r.value)
            && exists j, p, e :: MatchesAt(s, i, j, p, e) && r.value == s[j..e] && (e == |s| || !IsDigit(s[e])))
      && (r.None? ==> forall j, p, e :: !MatchesAt(s, i, j, p, e))
  {
    if LabelAt(s, i) {
      var j := SpacesEnd(s, i + 8);
      var p := DigitsEnd(s, j);
      if p == j || p >= |s| || s[p] != '.' {
        NoMatchAt(s, i);
      } else {
        var e := DigitsEnd(s, p + 1);
        if e == p + 1 {
          NoMatchAt(s, i);
        } else {
          assert MatchesAt(s, i, j, p, e);
          assert DotAt(s[j..e], p - j);
        }
      }
    }
  }

  /** Greedy matching loses no match: any match at `i` has its spaces ending where the
      space run ends and its dot where the first digit run ends. */
  lemma NoMatchAt(s: string, i: nat)
    requires LabelAt(s, i)
    requires var j := SpacesEnd(s, i + 8); var p := DigitsEnd(s, j);
      p == j || p >= |s| || s[p] != '.' || DigitsEnd(s, p + 1) == p + 1
    ensures forall j, p, e :: !MatchesAt(s, i, j, p, e)
  {
    forall j, p, e ensures !MatchesAt(s, i, j, p, e) {
      MatchIsGreedy(s, i, j, p, e);
    }
  }

  /** Where a match starts, its space run and its first digit run are the maximal ones,
      and its second digit run is not empty. */
  lemma MatchIsGreedy(s: string, i: nat, j: int, p: int, e: int)
    ensures MatchesAt(s, i, j, p, e) ==>
      && j == SpacesEnd(s, i + 8) && p == DigitsEnd(s, j)
      && p + 1 < |s| && DigitsEnd(s, p + 1) > p + 1
  {
    if MatchesAt(s, i, j, p, e) {
      assert !IsRegexSpace(s[j]);
    }
  }

  /** The scan behind Go `FindStringSubmatch`: the first capture `capture` gives at a
      start position from `i` up to `n`, or `None` when there is none. */
  function FirstCapture(capture: nat -> Option<string>, n: nat, i: nat): Option<string>
    requires i <= n
    decreases n - i
  {
    var here := capture(i);
    if here.Some? || i == n then here else FirstCapture(capture, n, i + 1)
  }

  /** The scan returns the capture at the first start position that has one, and `None`
      only when no start position has one. */
  lemma {:induction false} FirstCaptureSpec(capture: nat -> Option<string>, n: nat, i: nat)
    requires i <= n
    ensures var r := FirstCapture(capture, n, i);
      && (r.Some? ==> exists m :: i <= m <= n && capture(m) == r
                         && forall k :: i <= k < m ==> capture(k).None?)
      && (r.None? ==> forall k :: i <= k <= n ==> capture(k).None?)
    decreases n - i
  {
    var r := FirstCapture(capture, n, i);
    if capture(i).None? && i < n {
      FirstCaptureSpec(capture, n, i + 1);
      if r.Some? {
        var m :| i + 1 <= m <= n && capture(m) == r
                 && forall k :: i + 1 <= k < m ==> capture(k).None?;
        assert forall k :: i <= k < m ==> capture(k).None?;
      }
    }
  }

  /** The capture at each start position of `line`. */
  function CapturesOf(line: string): nat -> Option<string>
  {
    (m: nat) => CaptureFrom(line, m)
  }

  /** Go `FindStringSubmatch` with the call-id pattern on `line[i..]`: the capture of
      the leftmost match, or `None` when the pattern matches nowhere. */
  function FindFrom(line: string, i: nat): Option<string>
    requires i <= |line|
  {
    FirstCapture(CapturesOf(line), |line|, i)
  }

  /** The scan on a line returns the capture at the first start position where the
      pattern matches, and `None` only when it matches at no start position. */
  lemma FindFromSpec(line: string, i: nat)
    requires i <= |line|
    ensures var r := FindFrom(line, i);
      && (r.Some? ==> exists m :: i <= m <= |line| && CaptureFrom(line, m) == r
                         && forall k :: i <= k < m ==> CaptureFrom(line, k).None?)
      && (r.None? ==> forall k :: i <= k <= |line| ==> CaptureFrom(line, k).None?)
  {
    var capture := CapturesOf(line);
    FirstCaptureSpec(capture, |line|, i);
    if FindFrom(line, i).Some? {
      var m :| i <= m <= |line| && capture(m) == FindFrom(line, i)
               && forall k :: i <= k < m ==> capture(k).None?;
      assert CaptureFrom(line, m) == FindFrom(line, i);
      assert forall k :: i <= k < m ==> CaptureFrom(line, k).None? by {
        forall k | i <= k < m ensures CaptureFrom(line, k).None? {
          assert capture(k).None?;
        }
      }
    } else {
      forall k | i <= k <= |line| ensures CaptureFrom(line, k).None? {
        assert capture(k).None?;
      }
    }
  }

  function FindCallId(line: string): (r: Option<string>)
  {
    FindFrom(line, 0)
  }

  /** Nothing is found exactly when the pattern matches nowhere in the line, and what is
      found is the capture of the leftmost match. */
  lemma FindCallIdSpec(line: string)
    ensures FindCallId(line).None? <==> forall i, j, p, e :: !MatchesAt(line, i, j, p, e)
    ensures FindCallId(line).Some? ==>
      && IsCallId(FindCallId(line).value)
      && exists i, j, p, e :: MatchesAt(line, i, j, p, e) && FindCallId(line).value == line[j..e]
           && (e == |line| || !IsDigit(line[e]))
           && forall i', j', p', e' :: 0 <= i' < i ==> !MatchesAt(line, i', j', p', e')
  {
    FindFromSpec(line, 0);
    if FindCallId(line).Some? {
      var m :| 0 <= m <= |line| && CaptureFrom(line, m) == FindCallId(line)
               && forall k :: 0 <= k < m ==> CaptureFrom(line, k).None?;
      CaptureFromSpec(line, m);
      var j, p, e :| MatchesAt(line, m, j, p, e) && FindCallId(line).value == line[j..e]
                     && (e == |line| || !IsDigit(line[e]));
      assert forall i', j', p', e' :: 0 <= i' < m ==> !MatchesAt(line, i', j', p', e') by {
        forall i', j', p', e' | 0 <= i' < m ensures !MatchesAt(line, i', j', p', e') {
          CaptureFromSpec(line, i');
        }
      }
    } else {
      forall i, j, p, e ensures !MatchesAt(line, i, j, p, e) {
        if 0 <= i <= |line| {
          CaptureFromSpec(line, i);
        }
      }
    }
  }

  /** The identifiers found in `lines`, one per line that has a match. */
  function DiscoveredIds(lines: seq<string>): set<string>
  {
    if lines == [] then {}
    else
      var m := FindCallId(lines[|lines| - 1]);
      DiscoveredIds(lines[..|lines| - 1]) + (if m.Some? then {m.value} else {})
  }

  /** An identifier is discovered exactly when it is the capture on some line. */
  lemma {:induction false} DiscoveredIdsMembers(lines: seq<string>, id: string)
    ensures id in DiscoveredIds(lines) <==> exists i :: 0 <= i < |lines| && FindCallId(lines[i]) == Some(id)
  {
    if lines != [] {
      var n := |lines| - 1;
      DiscoveredIdsMembers(lines[..n], id);
      if id in DiscoveredIds(lines[..n]) {
        var i :| 0 <= i < n && FindCallId(lines[..n][i]) == Some(id);
        assert FindCallId(lines[i]) == Some(id);
      }
      if exists i :: 0 <= i < |lines| && FindCallId(lines[i]) == Some(id) {
        var i :| 0 <= i < |lines| && FindCallId(lines[i]) == Some(id);
        if i < n {
          assert lines[..n][i] == lines[i];
        }
      }
    }
  }

  /** Every discovered identifier has the `digits.digits` shape. */
  lemma DiscoveredIdsAreCallIds(lines: seq<string>, id: string)
    requires id in DiscoveredIds(lines)
    ensures IsCallId(id)
  {
    DiscoveredIdsMembers(lines, id);
    var i :| 0 <= i < |lines| && FindCallId(lines[i]) == Some(id);
    FindCallIdSpec(lines[i]);
  }

  // ---------------------------------------------------------------------------
  // Ordering of identifiers (Go's `>` on strings)

  /** Strict lexicographic order on strings, character by character. */
  predicate IdLess(a: string, b: string)
  {
    if a == [] then b != []
    else b != [] && (a[0] < b[0] || (a[0] == b[0] && IdLess(a[1..], b[1..])))
  }

  lemma {:induction false} IdLessIrreflexive(a: string)
    ensures !IdLess(a, a)
  {
    if a != [] { IdLessIrreflexive(a[1..]); }
  }

  lemma {:induction false} IdLessTrans(a: string, b: string, c: string)
    requires IdLess(a, b) && IdLess(b, c)
    ensures IdLess(a, c)
  {
    if a != [] && a[0] == b[0] && b[0] == c[0] {
      IdLessTrans(a[1..], b[1..], c[1..]);
    }
  }

  lemma {:induction false} IdLessTotal(a: string, b: string)
    requires a != b
    ensures IdLess(a, b) || IdLess(b, a)
  {
    if a != [] && b != [] && a[0] == b[0] {
      assert a == [a[0]] + a[1..] && b == [b[0]] + b[1..];
      IdLessTotal(a[1..], b[1..]);
    }
  }

  lemma IdLessTrichotomy(a: string, b: string)
    ensures a == b || IdLess(a, b) || IdLess(b, a)
  {
    if a != b {
      IdLessTotal(a, b);
    }
  }

  lemma IdLessAsymmetric(a: string, b: string)
    requires IdLess(a, b)
    ensures !IdLess(b, a)
  {
    if IdLess(b, a) {
      IdLessTrans(a, b, a);
      IdLessIrreflexive(a);
    }
  }

  function Ids(calls: seq<Call>): (ids: seq<string>)
    ensures |ids| == |calls| && forall i :: 0 <= i < |calls| ==> ids[i] == calls[i].id
  {
    seq(|calls|, i requires 0 <= i < |calls| => calls[i].id)
  }

  predicate StrictlyDescending(ids: seq<string>)
  {
    forall p, q :: 0 <= p < q < |ids| ==> IdLess(ids[q], ids[p])
  }

  /** Appending an identifier below every listed one keeps the list descending. */
  lemma DescendingAppend(ids: seq<string>, x: string)
    requires StrictlyDescending(ids) && forall i :: 0 <= i < |ids| ==> IdLess(x, ids[i])
    ensures StrictlyDescending(ids + [x])
  {
  }

  /** `ids` is the list discovery reports for the set `found` under `limit`: the
      `min(|found|, limit)` greatest identifiers, newest (greatest) first. */
  ghost predicate Ranked(ids: seq<string>, found: set<string>, limit: nat)
  {
    && |ids| == Min(|found|, limit)
    && StrictlyDescending(ids)
    && (forall i :: 0 <= i < |ids| ==> ids[i] in found)
    && (forall x | x in found :: x in ids || forall i :: 0 <= i < |ids| ==> IdLess(x, ids[i]))
  }

  /** The ranking determines the list: two rankings of the same set agree. */
  lemma RankedUnique(a: seq<string>, b: seq<string>, found: set<string>, limit: nat)
    requires Ranked(a, found, limit) && Ranked(b, found, limit)
    ensures a == b
  {
    forall i | 0 <= i < |a| ensures a[i] == b[i] {
      RankedUniqueAt(a, b, found, limit, i);
    }
  }

  lemma {:induction false} RankedUniqueAt(a: seq<string>, b: seq<string>, found: set<string>, limit: nat, i: nat)
    requires Ranked(a, found, limit) && Ranked(b, found, limit) && i < |a|
    ensures a[i] == b[i]
    decreases i
  {
    forall k | 0 <= k < i ensures a[k] == b[k] {
      RankedUniqueAt(a, b, found, limit, k);
    }
    NotBelowOther(a, b, found, limit, i);
    NotBelowOther(b, a, found, limit, i);
    IdLessTrichotomy(a[i], b[i]);
  }

  /** Helper of `RankedUniqueAt`: with equal prefixes, the entry of one ranking at
      position `i` is not above the entry of the other. */
  lemma NotBelowOther(a: seq<string>, b: seq<string>, found: set<string>, limit: nat, i: nat)
    requires Ranked(a, found, limit) && Ranked(b, found, limit) && i < |a|
    requires forall k :: 0 <= k < i ==> a[k] == b[k]
    ensures !IdLess(b[i], a[i])
  {
    if IdLess(b[i], a[i]) {
      IdLessIrreflexive(a[i]);
      IdLessAsymmetric(b[i], a[i]);
      assert false;
    }
  }

  /** The greatest identifier of a non-empty set. */
  method GreatestId(ids: set<string>) returns (m: string)
    requires ids != {}
    ensures m in ids && forall x | x in ids && x != m :: IdLess(x, m)
  {
    var rest := ids;
    m :| m in rest;
    rest := rest - {m};
    while rest != {}
      invariant rest <= ids && m in ids && m !in rest
      invariant forall x | x in ids - rest && x != m :: IdLess(x, m)
      decreases |rest|
    {
      var x :| x in rest;
      if IdLess(m, x) {
        forall y | y in ids - rest && y != m ensures IdLess(y, x) {
          IdLessTrans(y, m, x);
        }
        m := x;
      } else {
        IdLessTotal(m, x);
      }
      rest := rest - {x};
    }
  }

  function NewCall(id: string, now: int): Call
  {
    Call(id, now, "", "", "")
  }

  /** The first loop of `getRecentCalls`: one record per identifier found, stamped with
      the discovery time. */
  method CallMap(lines: seq<string>, now: int) returns (callMap: map<string, Call>)
    ensures callMap.Keys == DiscoveredIds(lines)
    ensures forall id | id in callMap :: callMap[id] == NewCall(id, now)
  {
    callMap := map[];
    for k := 0 to |lines|
      invariant callMap.Keys == DiscoveredIds(lines[..k])
      invariant forall id | id in callMap :: callMap[id] == NewCall(id, now)
    {
      assert lines[..k + 1][..k] == lines[..k];
      var m := FindCallId(lines[k]);
      if m.Some? && m.value !in callMap {
        callMap := callMap[m.value := NewCall(m.value, now)];
      }
    }
    assert lines[..|lines|] == lines;
  }

  /** The conversion of the map to a slice and its sort by identifier, newest first. */
  method NewestFirst(callMap: map<string, Call>) returns (calls: seq<Call>)
    requires forall id | id in callMap :: callMap[id].id == id
    ensures Ranked(Ids(calls), callMap.Keys, |callMap.Keys|)
    ensures forall id | id in callMap :: id in Ids(calls)
    ensures forall i :: 0 <= i < |calls| ==> calls[i].id in callMap && calls[i] == callMap[calls[i].id]
  {
    var ids := SortDescending(callMap.Keys);
    calls := [];
    for k := 0 to |ids|
      invariant |calls| == k
      invariant forall i :: 0 <= i < k ==> calls[i] == callMap[ids[i]]
    {
      calls := calls + [callMap[ids[k]]];
    }
    assert Ids(calls) == ids;
  }

  /** The sort by identifier, newest first, done by taking the greatest remaining
      identifier each time. */
  method SortDescending(found: set<string>) returns (ids: seq<string>)
    ensures Ranked(ids, found, |found|)
    ensures forall x | x in found :: x in ids
  {
    ids := [];
    var rest := found;
    while rest != {}
      invariant rest <= found && |ids| + |rest| == |found|
      invariant forall i :: 0 <= i < |ids| ==> ids[i] in found && ids[i] !in rest
      invariant forall x | x in found :: x in rest || x in ids
      invariant StrictlyDescending(ids)
      invariant forall x, i | x in rest && 0 <= i < |ids| :: IdLess(x, ids[i])
      decreases |rest|
    {
      var top := GreatestId(rest);
      DescendingAppend(ids, top);
      ids := ids + [top];
      rest := rest - {top};
    }
  }

  /** Cutting a full ranking to its first `limit` entries ranks under `limit`. */
  lemma RankedPrefix(ids: seq<string>, found: set<string>, limit: nat)
    requires Ranked(ids, found, |found|) && forall x | x in found :: x in ids
    ensures Ranked(ids[..Min(|ids|, limit)], found, limit)
  {
    var cut := ids[..Min(|ids|, limit)];
    forall x | x in found && x !in cut ensures forall i :: 0 <= i < |cut| ==> IdLess(x, cut[i]) {
      var k :| 0 <= k < |ids| && ids[k] == x;
      assert k >= |cut|;
    }
  }

  /** Go `getRecentCalls(limit)` after its `docker logs` call: finds the identifiers in
      the log text, keeps one record per identifier, and returns the `limit` greatest,
      newest first. */
  method GetRecentCalls(output: Result<string, string>, limit: nat, now: int) returns (r: Result<seq<Call>, string>)
    ensures output.Failure? ==> r == Failure("failed to read logs: " + output.error)
    ensures output.Success? ==> r.Success?
    ensures output.Success? ==> Ranked(Ids(r.value), DiscoveredIds(Split(output.value, '\n')), limit)
    ensures output.Success? ==> forall c | c in r.value :: c == NewCall(c.id, now)
  {
    if output.Failure? {
      return Failure("failed to read logs: " + output.error);
    }
    var callMap := CallMap(Split(output.value, '\n'), now);
    var calls := NewestFirst(callMap);
    ghost var all := calls;
    RankedPrefix(Ids(all), callMap.Keys, limit);
    if |calls| > limit {
      calls := calls[..limit];
    }
    assert Ids(calls) == Ids(all)[..Min(|all|, limit)];
    r := Success(calls);
  }

  // ===========================================================================
  // Call selection and log collection

  /** A line belongs to the call when it contains the identifier. */
  function MentionsCall(callId: string): string -> bool
  {
    line => Contains(line, callId)
  }

  /** Go `collectCallData` after its `docker logs` call: the lines of the log that
      contain the call identifier, in their original order, joined by newlines. */
  method CollectCallData(output: Result<string, string>, callId: string) returns (r: Result<string, string>)
    ensures output.Failure? ==> r == Failure(output.error)
    ensures output.Success? ==> r == Success(Join(Keep(Split(output.value, '\n'), MentionsCall(callId)), '\n'))
  {
    if output.Failure? {
      return Failure(output.error);
    }
    var lines := Split(output.value, '\n');
    var callLogs: seq<string> := [];
    for k := 0 to |lines|
      invariant callLogs == Keep(lines[..k], MentionsCall(callId))
    {
      assert lines[..k + 1][..k] == lines[..k];
      if Contains(lines[k], callId) {
        callLogs := callLogs + [lines[k]];
      }
    }
    assert lines[..|lines|] == lines;
    r := Success(Join(callLogs, '\n'));
  }

  /** Re-splitting the collected text gives back exactly the kept lines, each of which
      contains the identifier, whenever at least one line was kept. */
  lemma CollectedLinesRoundTrip(output: string, callId: string)
    requires Keep(Split(output, '\n'), MentionsCall(callId)) != []
    ensures var kept := Keep(Split(output, '\n'), MentionsCall(callId));
      Split(Join(kept, '\n'), '\n') == kept && forall l | l in kept :: Contains(l, callId)
  {
    var lines := Split(output, '\n');
    var kept := Keep(lines, MentionsCall(callId));
    forall l | l in kept ensures '\n' !in l && Contains(l, callId) {
      KeepMembers(lines, MentionsCall(callId), l);
    }
    SplitJoin(kept, '\n');
  }

  // ===========================================================================
  // Classification (analyzeBasic)

  const UnderflowIssue := "Jitter buffer underflow detected"
  const QualityIssue := "Audio quality issue detected"
  const EchoIssue := "Echo detected"

  /** The tests of `analyzeBasic`, on the lower-case form of a line. */
  predicate ErrorText(lower: string) { Contains(lower, "error") && !Contains(lower, "0 error") }
  predicate WarningText(lower: string) { Contains(lower, "warning") || Contains(lower, "warn") }
  predicate AudioSocketText(lower: string) { Contains(lower, "audiosocket") }
  predicate TranscriptionText(lower: string) { Contains(lower, "transcription") || Contains(lower, "transcript") }
  predicate PlaybackText(lower: string) { Contains(lower, "playback") || Contains(lower, "playing") }
  predicate UnderflowText(lower: string) { Contains(lower, "underflow") }
  predicate DistortionText(lower: string) { Contains(lower, "garbled") || Contains(lower, "distorted") }
  predicate EchoText(lower: string) { Contains(lower, "echo") }

  predicate IsErrorLine(line: string) { ErrorText(Lower(line)) }
  predicate IsWarningLine(line: string) { WarningText(Lower(line)) }
  predicate MentionsAudioSocket(line: string) { AudioSocketText(Lower(line)) }
  predicate MentionsTranscription(line: string) { TranscriptionText(Lower(line)) }
  predicate MentionsPlayback(line: string) { PlaybackText(Lower(line)) }
  predicate MentionsUnderflow(line: string) { UnderflowText(Lower(line)) }
  predicate MentionsDistortion(line: string) { DistortionText(Lower(line)) }
  predicate MentionsEcho(line: string) { EchoText(Lower(line)) }

  /** The audio findings one line contributes, in the order they are checked. */
  function LineIssues(line: string): (r: seq<string>)
    ensures |r| <= 3
  {
    (if MentionsUnderflow(line) then [UnderflowIssue] else [])
    + (if MentionsDistortion(line) then [QualityIssue] else [])
    + (if MentionsEcho(line) then [EchoIssue] else [])
  }

  function AudioIssues(lines: seq<string>): seq<string>
  {
    if lines == [] then []
    else AudioIssues(lines[..|lines| - 1]) + LineIssues(lines[|lines| - 1])
  }

  function EmptyAnalysis(callId: string, symptom: string): Analysis
  {
    Analysis(callId, [], [], [], map[], false, false, false, symptom)
  }

  /** What one line adds to the analysis. */
  function ClassifyLine(a: Analysis, line: string): Analysis
  {
    a.(errors := a.errors + (if IsErrorLine(line) then [line] else []),
       warnings := a.warnings + (if IsWarningLine(line) then [line] else []),
       hasAudioSocket := a.hasAudioSocket || MentionsAudioSocket(line),
       hasTranscription := a.hasTranscription || MentionsTranscription(line),
       hasPlayback := a.hasPlayback || MentionsPlayback(line),
       audioIssues := a.audioIssues + LineIssues(line))
  }

  /** The analysis of `lines`, one line after the other. */
  function Classify(callId: string, symptom: string, lines: seq<string>): Analysis
  {
    if lines == [] then EmptyAnalysis(callId, symptom)
    else ClassifyLine(Classify(callId, symptom, lines[..|lines| - 1]), lines[|lines| - 1])
  }

  /** The classification is the filter of the error and warning lines, the findings of
      every line in order, and the three stage flags as "some line mentions it". */
  lemma {:induction false} ClassifyMeaning(callId: string, symptom: string, lines: seq<string>)
    ensures var a := Classify(callId, symptom, lines);
      && a.callId == callId && a.symptom == symptom && a.metrics == map[]
      && a.errors == Keep(lines, IsErrorLine)
      && a.warnings == Keep(lines, IsWarningLine)
      && a.audioIssues == AudioIssues(lines)
      && (a.hasAudioSocket <==> exists l | l in lines :: MentionsAudioSocket(l))
      && (a.hasTranscription <==> exists l | l in lines :: MentionsTranscription(l))
      && (a.hasPlayback <==> exists l | l in lines :: MentionsPlayback(l))
  {
    if lines != [] {
      var init := lines[..|lines| - 1];
      ClassifyMeaning(callId, symptom, init);
      assert lines == init + [lines[|lines| - 1]];
    }
  }

  /** The body of the loop of `analyzeBasic`: the tests applied to one line. */
  method ScanLine(a0: Analysis, line: string) returns (a: Analysis)
    ensures a == ClassifyLine(a0, line)
  {
    ghost var spec := ClassifyLine(a0, line);
    var lower := Lower(line);
    var errors, warnings, issues := a0.errors, a0.warnings, a0.audioIssues;
    var audioSocket, transcription, playback := a0.hasAudioSocket, a0.hasTranscription, a0.hasPlayback;
    if ErrorText(lower) {
      errors := errors + [line];
    }
    assert errors == spec.errors;
    if WarningText(lower) {
      warnings := warnings + [line];
    }
    assert warnings == spec.warnings;
    if AudioSocketText(lower) {
      audioSocket := true;
    }
    if TranscriptionText(lower) {
      transcription := true;
    }
    if PlaybackText(lower) {
      playback := true;
    }
    assert audioSocket == spec.hasAudioSocket && transcription == spec.hasTranscription && playback == spec.hasPlayback;
    var found: seq<string> := [];
    if UnderflowText(lower) {
      found := found + [UnderflowIssue];
    }
    if DistortionText(lower) {
      found := found + [QualityIssue];
    }
    if EchoText(lower) {
      found := found + [EchoIssue];
    }
    assert found == LineIssues(line);
    issues := issues + found;
    a := a0.(errors := errors, warnings := warnings, audioIssues := issues,
             hasAudioSocket := audioSocket, hasTranscription := transcription, hasPlayback := playback);
  }

  /** Go `analyzeBasic`: one pass over the lines of `logData` that collects error and
      warning lines, sets the pipeline-stage flags and lists the audio findings. */
  method AnalyzeBasic(callId: string, symptom: string, logData: string) returns (a: Analysis)
    ensures var lines := Split(logData, '\n');
      && a.callId == callId && a.symptom == symptom && a.metrics == map[]
      && a.errors == Keep(lines, IsErrorLine)
      && a.warnings == Keep(lines, IsWarningLine)
      && a.audioIssues == AudioIssues(lines)
      && (a.hasAudioSocket <==> exists l | l in lines :: MentionsAudioSocket(l))
      && (a.hasTranscription <==> exists l | l in lines :: MentionsTranscription(l))
      && (a.hasPlayback <==> exists l | l in lines :: MentionsPlayback(l))
  {
    a := EmptyAnalysis(callId, symptom);
    var lines := Split(logData, '\n');
    for k := 0 to |lines|
      invariant a == Classify(callId, symptom, lines[..k])
    {
      assert lines[..k + 1][..k] == lines[..k];
      a := ScanLine(a, lines[k]);
    }
    assert lines[..|lines|] == lines;
    ClassifyMeaning(callId, symptom, lines);
  }

  /** Each line adds at most three audio findings. */
  lemma {:induction false} AudioIssuesBound(lines: seq<string>)
    ensures |AudioIssues(lines)| <= 3 * |lines|
  {
    if lines != [] {
      AudioIssuesBound(lines[..|lines| - 1]);
    }
  }

  function Count(xs: seq<string>, x: string): nat
  {
    if xs == [] then 0 else Count(xs[..|xs| - 1], x) + (if xs[|xs| - 1] == x then 1 else 0)
  }

  lemma {:induction false} CountAppend(xs: seq<string>, ys: seq<string>, x: string)
    ensures Count(xs + ys, x) == Count(xs, x) + Count(ys, x)
    decreases |ys|
  {
    if ys == [] {
      assert xs + ys == xs;
    } else {
      var n := |ys| - 1;
      var zs := xs + ys;
      assert zs[..|zs| - 1] == xs + ys[..n];
      assert zs[|zs| - 1] == ys[n];
      CountAppend(xs, ys[..n], x);
    }
  }

  /** The underflow finding is counted once for a line that mentions an underflow. */
  lemma LineUnderflowCount(l: string)
    ensures Count(LineIssues(l), UnderflowIssue) == if MentionsUnderflow(l) then 1 else 0
  {
    var u: seq<string> := if MentionsUnderflow(l) then [UnderflowIssue] else [];
    var d: seq<string> := if MentionsDistortion(l) then [QualityIssue] else [];
    var e: seq<string> := if MentionsEcho(l) then [EchoIssue] else [];
    assert LineIssues(l) == (u + d) + e;
    CountAppend(u, d, UnderflowIssue);
    CountAppend(u + d, e, UnderflowIssue);
    assert |QualityIssue| != |UnderflowIssue| && |EchoIssue| != |UnderflowIssue|;
    assert Count(d, UnderflowIssue) == 0 by {
      if d != [] { assert d[..0] == []; }
    }
    assert Count(e, UnderflowIssue) == 0 by {
      if e != [] { assert e[..0] == []; }
    }
    assert Count(u, UnderflowIssue) == (if MentionsUnderflow(l) then 1 else 0) by {
      if u != [] { assert u[..0] == []; }
    }
  }

  /** Findings are not deduplicated: the underflow finding appears exactly once per line
      that mentions an underflow, in any letter case. */
  lemma {:induction false} UnderflowFindingPerLine(lines: seq<string>)
    ensures Count(AudioIssues(lines), UnderflowIssue) == |Keep(lines, MentionsUnderflow)|
  {
    if lines != [] {
      var n := |lines| - 1;
      UnderflowFindingPerLine(lines[..n]);
      CountAppend(AudioIssues(lines[..n]), LineIssues(lines[n]), UnderflowIssue);
      LineUnderflowCount(lines[n]);
    }
  }

  /** The "warning" test is subsumed by the "warn" test: a line is a warning exactly
      when its lower-case form contains "warn". */
  lemma WarningIsWarn(line: string)
    ensures IsWarningLine(line) <==> Contains(Lower(line), "warn")
  {
    if Contains(Lower(line), "warning") {
      assert OccursAt("warning", "warn", 0);
      ContainsAt("warning", "warn");
      ContainsTrans(Lower(line), "warning", "warn");
    }
  }

  /** A zero count such as "0 errors" hides the word "error" anywhere else in the line. */
  lemma ZeroErrorsNotAnError(prefix: string, suffix: string)
    ensures !IsErrorLine(prefix + "0 errors" + suffix)
  {
    var line := prefix + "0 errors" + suffix;
    var low := Lower(line);
    assert line[|prefix|..|prefix| + 8] == "0 errors";
    forall k | 0 <= k < 7 ensures low[|prefix| + k] == "0 error"[k] {
      var c := line[|prefix| + k];
      assert c == "0 errors"[k];
      assert !('A' <= c <= 'Z');
      assert low[|prefix| + k] == LowerChar(c) == c;
    }
    assert low[|prefix|..|prefix| + 7] == "0 error";
    assert OccursAt(low, "0 error", |prefix|);
    ContainsAt(low, "0 error");
  }

  /** Letter case does not matter: "ERROR" in a line with no zero count makes it an
      error line. */
  lemma UpperCaseErrorIsError(prefix: string, suffix: string)
    requires !Contains(Lower(prefix + "ERROR" + suffix), "0 error")
    ensures IsErrorLine(prefix + "ERROR" + suffix)
  {
    var line := prefix + "ERROR" + suffix;
    var low := Lower(line);
    forall k | 0 <= k < 5 ensures low[|prefix| + k] == "error"[k] {
      assert line[|prefix| + k] == "ERROR"[k];
    }
    assert low[|prefix|..|prefix| + 5] == "error";
    assert OccursAt(low, "error", |prefix|);
    ContainsAt(low, "error");
  }

  // ===========================================================================
  // Report (displayFindings, displayRecommendations, truncate, formatDuration)

  const Rule := "═══════════════════════════════════════════"

  /** Go `truncate(s, maxLen)`: `s` itself when short enough, otherwise its first
      `maxLen - 3` characters followed by "...". A shorter `maxLen` makes the Go slice
      expression panic, so it is excluded. */
  function Truncate(s: string, maxLen: int): (r: string)
    requires |s| <= maxLen || maxLen >= 3
    ensures |r| <= |s| && (|s| <= maxLen ==> r == s)
    ensures |s| > maxLen ==> |r| == maxLen && r[..maxLen - 3] == s[..maxLen - 3] && EndsWith(r, "...")
  {
    if |s| <= maxLen then s else s[..maxLen - 3] + "..."
  }

  const Second := 1_000_000_000
  const Minute := 60 * Second
  const Hour := 60 * Minute

  /** Go's conversion of a quotient to an integer: division rounding toward zero. */
  function TruncDiv(a: int, b: int): (q: int)
    requires b > 0
    ensures a >= 0 ==> q * b <= a < (q + 1) * b
    ensures a < 0 ==> (q - 1) * b < a <= q * b
  {
    if a >= 0 then
      assert a == (a / b) * b + a % b;
      a / b
    else
      assert -a == ((-a) / b) * b + (-a) % b;
      -((-a) / b)
  }

  /** Go `formatDuration(d)` for `d` in nanoseconds: whole seconds below a minute,
      whole minutes below an hour, whole hours otherwise, each rounded toward zero. */
  function FormatDuration(d: int): string
  {
    if d < Minute then IntToString(TruncDiv(d, Second)) + "s"
    else if d < Hour then IntToString(TruncDiv(d, Minute)) + "m"
    else IntToString(TruncDiv(d, Hour)) + "h"
  }

  /** `r` is `d` counted in units of `size`, rounded toward zero, followed by the unit
      letter. */
  predicate CountedIn(r: string, d: int, size: int, unit: char)
  {
    && |r| >= 2 && r[|r| - 1] == unit && ParseInt(r[..|r| - 1]).Some?
    && var v := ParseInt(r[..|r| - 1]).value;
    && (d >= 0 ==> v * size <= d < (v + 1) * size)
    && (d < 0 ==> (v - 1) * size < d <= v * size)
  }

  /** The text is a number and a unit letter; read back, the number is the duration
      counted in that unit, rounded toward zero. */
  lemma FormatDurationMeaning(d: int)
    ensures d < Minute ==> CountedIn(FormatDuration(d), d, Second, 's')
    ensures Minute <= d < Hour ==> CountedIn(FormatDuration(d), d, Minute, 'm')
    ensures Hour <= d ==> CountedIn(FormatDuration(d), d, Hour, 'h')
  {
    if d < Minute {
      CountIn(d, Second, 's');
      assert FormatDuration(d) == IntToString(TruncDiv(d, Second)) + ['s'];
    } else if d < Hour {
      CountIn(d, Minute, 'm');
      assert FormatDuration(d) == IntToString(TruncDiv(d, Minute)) + ['m'];
    } else {
      CountIn(d, Hour, 'h');
      assert FormatDuration(d) == IntToString(TruncDiv(d, Hour)) + ['h'];
    }
  }

  /** `d` counted in units of `size`, followed by the unit letter. */
  lemma CountIn(d: int, size: int, unit: char)
    requires size > 0
    ensures CountedIn(IntToString(TruncDiv(d, size)) + [unit], d, size, unit)
  {
    NumberWithUnit(TruncDiv(d, size), unit);
  }

  /** A number followed by a unit letter: dropping the letter and parsing gives the
      number back. */
  lemma NumberWithUnit(v: int, unit: char)
    ensures var r := IntToString(v) + [unit];
      |r| >= 2 && r[|r| - 1] == unit && ParseInt(r[..|r| - 1]) == Some(v)
  {
    var r := IntToString(v) + [unit];
    assert r[..|r| - 1] == IntToString(v);
    IntToStringParses(v);
  }

  function NumberedLine(i: nat, item: string): string
  {
    "  " + IntToString(i + 1) + ". " + Truncate(item, 100)
  }

  function MoreLine(n: int): string
  {
    "  ... and " + IntToString(n) + " more"
  }

  function Header(title: string, count: nat): string
  {
    title + " (" + IntToString(count) + "):"
  }

  /** The first `n` items as numbered lines. */
  function Numbered(items: seq<string>, n: nat): (r: seq<string>)
    requires n <= |items|
    ensures |r| == n && forall i {:trigger NumberedLine(i, items[i])} :: 0 <= i < n ==> r[i] == NumberedLine(i, items[i])
  {
    if n == 0 then [] else Numbered(items, n - 1) + [NumberedLine(n - 1, items[n - 1])]
  }

  /** A list section of the report: a header with the count, the first `cap` items
      numbered from 1 and cut to 100 characters, a notice of how many more there are
      when the cap is exceeded, and a blank line. Nothing when there are no items. */
  function CappedSection(title: string, items: seq<string>, cap: nat): (r: seq<string>)
  {
    if items == [] then []
    else
      [Header(title, |items|)] + Numbered(items, Min(|items|, cap))
      + (if |items| > cap then [MoreLine(|items| - cap)] else []) + [""]
  }

  /** A non-empty section shows `min(n, cap)` numbered items after its header, followed
      by "... and k more" with `k == n - cap` when `n > cap`, and ends with a blank line. */
  lemma CappedSectionShape(title: string, items: seq<string>, cap: nat)
    requires items != []
    ensures var out := CappedSection(title, items, cap);
      var shown := Min(|items|, cap);
      && |out| == shown + (if |items| > cap then 3 else 2)
      && out[0] == Header(title, |items|)
      && (forall i :: 0 <= i < shown ==> out[1 + i] == NumberedLine(i, items[i]))
      && (|items| > cap ==> out[1 + shown] == MoreLine(|items| - cap))
      && out[|out| - 1] == ""
  {
    var shown := Min(|items|, cap);
    var head := Header(title, |items|);
    var more := if |items| > cap then [MoreLine(|items| - cap)] else [];
    var body := Numbered(items, shown);
    SectionLayout(head, body, more);
    var out := CappedSection(title, items, cap);
    forall i | 0 <= i < shown ensures out[1 + i] == NumberedLine(i, items[i]) {
      SameText(out[1 + i], body[i], NumberedLine(i, items[i]));
    }
    if |items| > cap {
      SameText(out[1 + shown], more[0], MoreLine(|items| - cap));
    }
  }

  /** Where the parts of a header, body, optional notice and blank line land. */
  lemma SectionLayout(head: string, body: seq<string>, more: seq<string>)
    ensures var out := [head] + body + more + [""];
      && |out| == |body| + |more| + 2
      && out[0] == head
      && (forall i :: 0 <= i < |body| ==> out[1 + i] == body[i])
      && (more != [] ==> out[1 + |body|] == more[0])
      && out[|out| - 1] == ""
  {
  }

  function StatusLines(a: Analysis): seq<string>
  {
    ["Pipeline Status:",
     if a.hasAudioSocket then "  ✅ AudioSocket: Active" else "  ❌ AudioSocket: Not detected",
     if a.hasTranscription then "  ✅ Transcription: Active" else "  ⚠️  Transcription: Not detected",
     if a.hasPlayback then "  ✅ Playback: Active" else "  ⚠️  Playback: Not detected",
     ""]
  }

  function IssueLine(issue: string): string
  {
    "  • " + issue
  }

  /** The first `n` issues as bullet lines. */
  function Bulleted(issues: seq<string>, n: nat): (r: seq<string>)
    requires n <= |issues|
    ensures |r| == n && forall i :: 0 <= i < n ==> r[i] == IssueLine(issues[i])
  {
    if n == 0 then [] else Bulleted(issues, n - 1) + [IssueLine(issues[n - 1])]
  }

  /** The audio-issue section: a header with the count, one bullet per issue and a
      blank line; nothing when there are no issues. */
  function IssuesSection(issues: seq<string>): seq<string>
  {
    if issues == [] then []
    else ["Audio Issues Found (" + IntToString(|issues|) + "):"] + Bulleted(issues, |issues|) + [""]
  }

  const CheckAudioSocket := "  • Check if AudioSocket is configured correctly"
  const VerifyPort := "  • Verify port 8090 is accessible"
  const RunDoctor := "  • Run: agent doctor (for detailed diagnostics)"
  const CheckJitter := "  • Check jitter_buffer_ms settings"
  const VerifyNetwork := "  • Verify network stability"
  const HighErrorCount := "  • High error count - check container logs"
  const GrepErrors := "  • Run: docker logs ai_engine | grep ERROR"

  /** Go `displayRecommendations`: the remediation rules. */
  function Recommendations(a: Analysis): seq<string>
  {
    ["Recommendations:"]
    + (if !a.hasAudioSocket then [CheckAudioSocket, VerifyPort] else [])
    + (if |a.audioIssues| > 0 then [RunDoctor, CheckJitter, VerifyNetwork] else [])
    + (if |a.errors| > 10 then [HighErrorCount, GrepErrors] else [])
    + [""]
  }

  /** Each remediation is given exactly when its condition holds. */
  lemma RecommendationRules(a: Analysis)
    ensures CheckAudioSocket in Recommendations(a) <==> !a.hasAudioSocket
    ensures VerifyPort in Recommendations(a) <==> !a.hasAudioSocket
    ensures RunDoctor in Recommendations(a) <==> |a.audioIssues| > 0
    ensures VerifyNetwork in Recommendations(a) <==> |a.audioIssues| > 0
    ensures HighErrorCount in Recommendations(a) <==> |a.errors| > 10
    ensures GrepErrors in Recommendations(a) <==> |a.errors| > 10
  {
    AudioSocketRule(a);
    AudioIssuesRule(a);
    ErrorCountRule(a);
  }

  /** The AudioSocket checks are recommended exactly when no AudioSocket was seen. */
  lemma AudioSocketRule(a: Analysis)
    ensures CheckAudioSocket in Recommendations(a) <==> !a.hasAudioSocket
    ensures VerifyPort in Recommendations(a) <==> !a.hasAudioSocket
  {
  }

  /** The doctor and network checks are recommended exactly when audio issues were found. */
  lemma AudioIssuesRule(a: Analysis)
    ensures RunDoctor in Recommendations(a) <==> |a.audioIssues| > 0
    ensures VerifyNetwork in Recommendations(a) <==> |a.audioIssues| > 0
  {
  }

  /** The error-log checks are recommended exactly when there are more than 10 errors. */
  lemma ErrorCountRule(a: Analysis)
    ensures HighErrorCount in Recommendations(a) <==> |a.errors| > 10
    ensures GrepErrors in Recommendations(a) <==> |a.errors| > 10
  {
  }

  function Banner(): seq<string>
  {
    [Rule, "📊 ANALYSIS RESULTS", Rule, ""]
  }

  /** The whole findings report of `displayFindings` for an analysis. */
  function FindingsReport(a: Analysis): seq<string>
  {
    Banner() + StatusLines(a) + IssuesSection(a.audioIssues)
    + CappedSection("Errors", a.errors, 5) + CappedSection("Warnings", a.warnings, 3)
    + Recommendations(a)
  }

  /** The loop of `displayFindings` that prints the first `cap` items of a list. */
  method RenderCapped(title: string, items: seq<string>, cap: nat) returns (out: seq<string>)
    ensures out == CappedSection(title, items, cap)
  {
    out := [];
    if |items| > 0 {
      var count := |items|;
      if count > cap {
        count := cap;
      }
      var lines := [];
      var i := 0;
      while i < count
        invariant 0 <= i <= count == Min(|items|, cap)
        invariant lines == Numbered(items, i)
      {
        lines := lines + [NumberedLine(i, items[i])];
        i := i + 1;
      }
      out := [Header(title, |items|)] + lines;
      if |items| > cap {
        out := out + [MoreLine(|items| - cap)];
      }
      out := out + [""];
    }
  }

  /** Go `displayFindings` (with `displayRecommendations`), as the lines it prints. */
  method DisplayFindings(a: Analysis) returns (out: seq<string>)
    ensures out == FindingsReport(a)
  {
    out := Banner() + StatusLines(a);
    var issues := RenderIssues(a.audioIssues);
    var errs := RenderCapped("Errors", a.errors, 5);
    var warns := RenderCapped("Warnings", a.warnings, 3);
    out := out + issues + errs + warns + Recommendations(a);
  }

  /** The loop of `displayFindings` that prints every audio issue. */
  method RenderIssues(issues: seq<string>) returns (out: seq<string>)
    ensures out == IssuesSection(issues)
  {
    out := [];
    if |issues| > 0 {
      var header := "Audio Issues Found (" + IntToString(|issues|) + "):";
      out := [header];
      for k := 0 to |issues|
        invariant out == [header] + Bulleted(issues, k)
      {
        out := out + [IssueLine(issues[k])];
      }
      out := out + [""];
    }
  }

  // ---------------------------------------------------------------------------
  // List mode (listCalls)

  /** Go's `%2d`: the number right-aligned in two columns. */
  function Pad2(s: string): (r: string)
    ensures EndsWith(r, s) && |r| == (if |s| < 2 then |s| + 1 else |s|)
  {
    if |s| < 2 then
      assert (" " + s)[1..] == s;
      " " + s
    else s
  }

  /** One line of the call list; `now` is the time of listing, so the age is
      `now - c.timestamp`. */
  function CallLine(i: nat, c: Call, now: int): string
  {
    Pad2(IntToString(i + 1)) + ". " + c.id + " - " + FormatDuration(now - c.timestamp) + " ago"
    + (if c.duration != "" then " (duration: " + c.duration + ")" else "")
  }

  /** The lines of the first `n` calls. */
  function CallLines(calls: seq<Call>, now: int, n: nat): (r: seq<string>)
    requires n <= |calls|
    ensures |r| == n
  {
    if n == 0 then [] else CallLines(calls, now, n - 1) + [CallLine(n - 1, calls[n - 1], now)]
  }

  /** Line `i` of the first `n` lines of the list. */
  function ListedLine(calls: seq<Call>, now: int, n: nat, i: nat): string
    requires i < n <= |calls|
  {
    CallLines(calls, now, n)[i]
  }

  lemma {:induction false} ListedLineAt(calls: seq<Call>, now: int, n: nat, i: nat)
    requires i < n <= |calls|
    ensures ListedLine(calls, now, n, i) == CallLine(i, calls[i], now)
    decreases n
  {
    if i < n - 1 {
      ListedLineAt(calls, now, n - 1, i);
      ListedLineKept(calls, now, n, i);
      SameText(ListedLine(calls, now, n, i), ListedLine(calls, now, n - 1, i), CallLine(i, calls[i], now));
    } else {
      ListedLineLast(calls, now, n);
    }
  }

  /** Listing one more call keeps the earlier lines. */
  lemma ListedLineKept(calls: seq<Call>, now: int, n: nat, i: nat)
    requires i < n - 1 && n <= |calls|
    ensures ListedLine(calls, now, n, i) == ListedLine(calls, now, n - 1, i)
  {
  }

  /** The last line lists the last call. */
  lemma ListedLineLast(calls: seq<Call>, now: int, n: nat)
    requires 0 < n <= |calls|
    ensures ListedLine(calls, now, n, n - 1) == CallLine(n - 1, calls[n - 1], now)
  {
  }

  /** Line `i` of the list shows call `i`. */
  lemma CallLinesAt(calls: seq<Call>, now: int, n: nat, i: nat)
    requires i < n <= |calls|
    ensures CallLines(calls, now, n)[i] == CallLine(i, calls[i], now)
  {
    ListedLineAt(calls, now, n, i);
  }

  function ListReport(calls: seq<Call>, now: int): seq<string>
  {
    if calls == [] then ["No recent calls found"]
    else
      ["Recent calls (" + IntToString(|calls|) + "):", ""]
      + CallLines(calls, now, |calls|) + ["", "Usage: agent troubleshoot --call <id>"]
  }

  /** Go `listCalls` after discovery: the numbered list of calls with their ages. */
  method ListCalls(calls: seq<Call>, now: int) returns (out: seq<string>)
    ensures out == ListReport(calls, now)
  {
    if |calls| == 0 {
      return ["No recent calls found"];
    }
    var lines := RenderCallLines(calls, now);
    out := ["Recent calls (" + IntToString(|calls|) + "):", ""] + lines + ["", "Usage: agent troubleshoot --call <id>"];
  }

  /** The loop of `listCalls`: one line per call, in order. */
  method RenderCallLines(calls: seq<Call>, now: int) returns (lines: seq<string>)
    ensures lines == CallLines(calls, now, |calls|)
  {
    lines := [];
    for i := 0 to |calls|
      invariant lines == CallLines(calls, now, i)
    {
      lines := lines + [CallLine(i, calls[i], now)];
    }
  }

  /** For the calls discovery ranks under 20: the list is empty exactly when no call
      was found; otherwise line `i + 2` shows the `i`-th of the (at most 20) newest
      identifiers found, in strictly descending order. */
  lemma ListedCallsRanked(output: string, now: int, calls: seq<Call>)
    requires Ranked(Ids(calls), DiscoveredIds(Split(output, '\n')), 20)
    ensures var found := DiscoveredIds(Split(output, '\n'));
      var out := ListReport(calls, now);
      && |calls| == Min(|found|, 20)
      && (found == {} <==> out == ["No recent calls found"])
      && (found != {} ==>
            && |out| == |calls| + 4
            && StrictlyDescending(Ids(calls))
            && forall i :: 0 <= i < |calls| ==> calls[i].id in found && out[i + 2] == CallLine(i, calls[i], now))
  {
    var found := DiscoveredIds(Split(output, '\n'));
    forall i | 0 <= i < |calls| ensures calls[i].id in found {
      assert Ids(calls)[i] == calls[i].id;
    }
    ListReportLines(calls, now);
  }

  /** Where the call lines sit in a non-empty list report. */
  lemma ListReportLines(calls: seq<Call>, now: int)
    ensures var out := ListReport(calls, now);
      && (calls == [] <==> out == ["No recent calls found"])
      && (calls != [] ==>
            && |out| == |calls| + 4
            && forall i :: 0 <= i < |calls| ==> out[i + 2] == CallLine(i, calls[i], now))
  {
    if calls != [] {
      var head := "Recent calls (" + IntToString(|calls|) + "):";
      assert head[0] == 'R' && "No recent calls found"[0] == 'N';
      var lines := CallLines(calls, now, |calls|);
      Framed(head, "", lines, "", "Usage: agent troubleshoot --call <id>");
      forall i | 0 <= i < |calls| ensures lines[i] == CallLine(i, calls[i], now) {
        CallLinesAt(calls, now, |calls|, i);
      }
    }
  }

  /** Where the parts of a body framed by two lines on each side land. */
  lemma Framed(a: string, b: string, body: seq<string>, c: string, d: string)
    ensures var out := [a, b] + body + [c, d];
      && |out| == |body| + 4 && out[0] == a
      && forall i :: 0 <= i < |body| ==> out[i + 2] == body[i]
  {
  }

  const InteractiveStub := [Rule, "Interactive Mode", Rule, "", "Coming soon: Interactive Q&A for deeper diagnosis"]

  function IsAutoSelect(callId: string): bool
  {
    callId == "" || callId == "last"
  }

  /** The newest discovered identifier. */
  ghost predicate IsNewest(id: string, found: set<string>)
  {
    id in found && forall x | x in found && x != id :: IdLess(x, id)
  }

  /** Two newest identifiers of the same set are the same. */
  lemma NewestUnique(a: string, b: string, found: set<string>)
    requires IsNewest(a, found) && IsNewest(b, found)
    ensures a == b
  {
    if a != b {
      IdLessAsymmetric(a, b);
    }
  }

  // ---------------------------------------------------------------------------
  // Console output of `Runner.Run`

  const RunTitle := ["", "🔍 Call Troubleshooting & RCA", Rule, ""]
  const NoCallsTips := ["❌ No recent calls found", "", "Tips:", "  • Make a test call first",
                        "  • Check if ai_engine container is running", "  • Verify logs: docker logs ai_engine"]
  const CollectingLine := "Collecting call data..."
  const DataCollected := ["✅ Data collected", ""]
  const CollectOnlyLine := "Data collection complete. Files saved to logs/"
  const AnalyzingLogs := ["Analyzing logs...", ""]

  function AnalyzingCall(callId: string): seq<string>
  {
    ["Analyzing most recent call: " + callId, ""]
  }

  /** The lines the command filters out of the last hour's log for a call. */
  function CallLogLines(since1h: string, callId: string): seq<string>
  {
    Split(Join(Keep(Split(since1h, '\n'), MentionsCall(callId)), '\n'), '\n')
  }

  /** Call selection in `Runner.Run`: the given identifier, or, when it is empty or
      "last", the first of the ten newest discovered calls. `out` is what the block
      prints: the tips when no call was found, the chosen identifier otherwise. */
  method SelectCall(callId: string, since24h: Result<string, string>, discoveredAt: int)
    returns (r: Result<string, string>, out: seq<string>)
    ensures !IsAutoSelect(callId) ==> r == Success(callId) && out == []
    ensures IsAutoSelect(callId) && since24h.Failure? ==>
      && r == Failure("failed to get recent calls: " + ("failed to read logs: " + since24h.error))
      && out == []
    ensures IsAutoSelect(callId) && since24h.Success? ==>
      var found := DiscoveredIds(Split(since24h.value, '\n'));
      && (found == {} ==> r == Failure("no calls to analyze") && out == NoCallsTips)
      && (found != {} ==> r.Success? && IsNewest(r.value, found) && out == AnalyzingCall(r.value))
  {
    out := [];
    if !(callId == "" || callId == "last") {
      return Success(callId), out;
    }
    var calls := GetRecentCalls(since24h, 10, discoveredAt);
    if calls.Failure? {
      return Failure("failed to get recent calls: " + calls.error), out;
    }
    if |calls.value| == 0 {
      return Failure("no calls to analyze"), NoCallsTips;
    }
    NewestIsGreatest(Ids(calls.value), DiscoveredIds(Split(since24h.value, '\n')), 10);
    r := Success(calls.value[0].id);
    out := AnalyzingCall(calls.value[0].id);
  }

  /** Collection and analysis in `Runner.Run` once the call is chosen; `out` is what
      this part prints. */
  method InvestigateCall(opts: Options, callId: string, since1h: Result<string, string>)
    returns (r: Result<RunOutcome, string>, out: seq<string>)
    ensures since1h.Failure? ==> r == Failure("failed to collect data: " + since1h.error) && out == [CollectingLine]
    ensures since1h.Success? ==> r.Success?
    ensures since1h.Success? && opts.collectOnly ==>
      && r.value == Collected(callId, Join(Keep(Split(since1h.value, '\n'), MentionsCall(callId)), '\n'))
      && out == [CollectingLine] + DataCollected + [CollectOnlyLine]
    ensures since1h.Success? && !opts.collectOnly ==>
      && r.value.Analyzed? && r.value.callId == callId
      && var lines := CallLogLines(since1h.value, callId);
      && r.value.analysis.callId == callId && r.value.analysis.symptom == opts.symptom
      && r.value.analysis.errors == Keep(lines, IsErrorLine)
      && r.value.analysis.warnings == Keep(lines, IsWarningLine)
      && r.value.analysis.audioIssues == AudioIssues(lines)
      && r.value.report == FindingsReport(r.value.analysis) + (if opts.interactive then InteractiveStub else [])
      && out == [CollectingLine] + DataCollected + AnalyzingLogs + r.value.report
  {
    out := [CollectingLine];
    var logData := CollectCallData(since1h, callId);
    if logData.Failure? {
      return Failure("failed to collect data: " + logData.error), out;
    }
    out := out + DataCollected;
    if opts.collectOnly {
      return Success(Collected(callId, logData.value)), out + [CollectOnlyLine];
    }
    var analysis := AnalyzeBasic(callId, opts.symptom, logData.value);
    var report := DisplayFindings(analysis);
    if opts.interactive {
      report := report + InteractiveStub;
    }
    r := Success(Analyzed(callId, analysis, report));
    out := out + AnalyzingLogs + report;
  }

  /** Go `Runner.Run`: list mode, or selection of the call, collection of its lines and
      analysis. `discoveredAt` and `listedAt` are the clock readings of discovery and
      listing; `out` is everything the run prints before it returns. */
  method Run(opts: Options, logs: DockerLogs, discoveredAt: int, listedAt: int)
    returns (r: Result<RunOutcome, string>, out: seq<string>)
    // List mode: the (at most 20) newest calls discovered, listed with their ages.
    ensures opts.list && logs.since24h.Failure? ==>
      r == Failure("failed to read logs: " + logs.since24h.error) && out == RunTitle
    ensures opts.list && logs.since24h.Success? ==>
      && r.Success? && r.value.Listed?
      && Ranked(Ids(r.value.calls), DiscoveredIds(Split(logs.since24h.value, '\n')), 20)
      && (forall c | c in r.value.calls :: c == NewCall(c.id, discoveredAt))
      && r.value.report == ListReport(r.value.calls, listedAt)
      && out == RunTitle + r.value.report
    // Selection failures.
    ensures !opts.list && IsAutoSelect(opts.callId) && logs.since24h.Failure? ==>
      && r == Failure("failed to get recent calls: " + ("failed to read logs: " + logs.since24h.error))
      && out == RunTitle
    ensures (!opts.list && IsAutoSelect(opts.callId) && logs.since24h.Success?
             && DiscoveredIds(Split(logs.since24h.value, '\n')) == {}) ==>
      r == Failure("no calls to analyze") && out == RunTitle + NoCallsTips
    // Collection failure, for a given call and for the newest one.
    ensures !opts.list && !IsAutoSelect(opts.callId) && logs.since1h.Failure? ==>
      r == Failure("failed to collect data: " + logs.since1h.error) && out == RunTitle + [CollectingLine]
    ensures (!opts.list && IsAutoSelect(opts.callId) && logs.since24h.Success?
             && DiscoveredIds(Split(logs.since24h.value, '\n')) != {} && logs.since1h.Failure?) ==>
      && r == Failure("failed to collect data: " + logs.since1h.error)
      && exists id | IsNewest(id, DiscoveredIds(Split(logs.since24h.value, '\n'))) ::
           out == RunTitle + AnalyzingCall(id) + [CollectingLine]
    // Success whenever a call is chosen and the last hour's log is read.
    ensures (!opts.list && logs.since1h.Success?
             && (IsAutoSelect(opts.callId) ==>
                   logs.since24h.Success? && DiscoveredIds(Split(logs.since24h.value, '\n')) != {})) ==>
      r.Success?
    ensures !opts.list && r.Success? ==>
      && !r.value.Listed? && logs.since1h.Success?
      && (!IsAutoSelect(opts.callId) ==> r.value.callId == opts.callId)
      && (IsAutoSelect(opts.callId) ==>
            logs.since24h.Success? && IsNewest(r.value.callId, DiscoveredIds(Split(logs.since24h.value, '\n'))))
      && (r.value.Collected? <==> opts.collectOnly)
      && (r.value.Collected? ==>
            && r.value.callLogs == Join(Keep(Split(logs.since1h.value, '\n'), MentionsCall(r.value.callId)), '\n')
            && out == RunTitle + (if IsAutoSelect(opts.callId) then AnalyzingCall(r.value.callId) else [])
                      + ([CollectingLine] + DataCollected + [CollectOnlyLine]))
      && (r.value.Analyzed? ==>
            && var lines := CallLogLines(logs.since1h.value, r.value.callId);
            && r.value.analysis.callId == r.value.callId && r.value.analysis.symptom == opts.symptom
            && r.value.analysis.errors == Keep(lines, IsErrorLine)
            && r.value.analysis.warnings == Keep(lines, IsWarningLine)
            && r.value.analysis.audioIssues == AudioIssues(lines)
            && r.value.report == FindingsReport(r.value.analysis) + (if opts.interactive then InteractiveStub else [])
            && out == RunTitle + (if IsAutoSelect(opts.callId) then AnalyzingCall(r.value.callId) else [])
                      + ([CollectingLine] + DataCollected + AnalyzingLogs + r.value.report))
  {
    out := RunTitle;
    if opts.list {
      var calls := GetRecentCalls(logs.since24h, 20, discoveredAt);
      if calls.Failure? {
        return Failure(calls.error), out;
      }
      var report := ListCalls(calls.value, listedAt);
      return Success(Listed(calls.value, report)), out + report;
    }
    var selected, picked := SelectCall(opts.callId, logs.since24h, discoveredAt);
    out := out + picked;
    if selected.Failure? {
      return Failure(selected.error), out;
    }
    var investigated;
    r, investigated := InvestigateCall(opts, selected.value, logs.since1h);
    out := out + investigated;
  }

  /** The first entry of a non-empty ranking is the greatest identifier found. */
  lemma NewestIsGreatest(ids: seq<string>, found: set<string>, limit: nat)
    requires Ranked(ids, found, limit) && ids != []
    ensures ids[0] in found && forall x | x in found && x != ids[0] :: IdLess(x, ids[0])
  {
    forall x | x in found && x != ids[0] ensures IdLess(x, ids[0]) {
      if x in ids {
        var i :| 0 <= i < |ids| && ids[i] == x;
        assert i != 0;
      }
    }
  }
}

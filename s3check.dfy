/**
 * `check_s3`: probes object storage for the files a record lists, skipping
 * any (file type, key) pair already probed during the same lookup, and
 * collects one output entry per probe plus two sticky error flags.
 */
module S3Check {
  import opened Wrappers
  import opened Text
  import opened Values
  import opened Backend
  import Links

  /** Bucket and key of a file URL. */
  datatype Location = Location(bucket: string, key: string)

  /** `full.replace(host, '')` split once at '/'; absent when the unpacking would fail. */
  function Locate(full: string): (r: Option<Location>)
    ensures r.Some? <==> '/' in ReplaceAll(full, Links.S3Host, "")
    ensures r.Some? ==> ReplaceAll(full, Links.S3Host, "") == r.value.bucket + "/" + r.value.key
    ensures r.Some? ==> '/' !in r.value.bucket
  {
    match SplitOnce(ReplaceAll(full, Links.S3Host, ""), '/')
    case None => None
    case Some((b, k)) => Some(Location(b, k))
  }

  /** The key a probe asks for: '+' read as a space. */
  function ProbeKey(key: string): string {
    ReplaceAll(key, "+", " ")
  }

  /** One line of the uploaded-files table. */
  datatype Entry =
    | Present(fileType: string, link: Cell)
    | Missing(fileType: string, key: string)
    | Errored(fileType: string, key: string, message: string)

  /** `s3files`, `outs3` and the two `errtype` flags. */
  datatype S3State = S3State(seen: map<string, map<string, bool>>, outs: seq<Entry>, notFound: bool, other: bool)

  const Fresh: S3State := S3State(map[], [], false, false)

  predicate Seen(seen: map<string, map<string, bool>>, ftype: string, key: string) {
    ftype in seen && key in seen[ftype]
  }

  function Remember(seen: map<string, map<string, bool>>, ftype: string, key: string): map<string, map<string, bool>> {
    seen[ftype := (if ftype in seen then seen[ftype] else map[])[key := true]]
  }

  /** The state after some files, the fault that stopped them if any, and the probes issued. */
  datatype S3Run = S3Run(state: S3State, fault: Option<Fault>, heads: seq<Request>)

  /** The located key of a file entry, when it has one. */
  function KeyOf(full: Value): Option<string> {
    if full.Str? then
      match Locate(full.s)
      case Some(loc) => Some(loc.key)
      case None => None
    else None
  }

  /** The state after probing an unseen pair, by what the probe answered. */
  function Probed(st: S3State, ftype: string, full: string, key: string, answer: Probe): (r: S3State)
    ensures r.seen == st.seen
    ensures answer.Unexpected? ==> r == st
    ensures !answer.Unexpected? ==> |r.outs| == |st.outs| + 1 && r.outs[..|st.outs|] == st.outs
    ensures r.notFound <==> st.notFound || (answer.ClientError? && answer.code == "404")
    ensures r.other <==> st.other || (answer.ClientError? && answer.code != "404")
    ensures !answer.Unexpected? ==> (r.outs[|st.outs|].Missing? <==> answer.ClientError? && answer.code == "404")
    ensures !answer.Unexpected? ==> (r.outs[|st.outs|].Errored? <==> answer.ClientError? && answer.code != "404")
  {
    match answer
    case Exists => st.(outs := st.outs + [Present(ftype, Link(full, Links.UrlText(full)))])
    case ClientError(code, message) =>
      if code == "404" then st.(outs := st.outs + [Missing(ftype, key)], notFound := true)
      else st.(outs := st.outs + [Errored(ftype, key, message)], other := true)
    case Unexpected(_) => st
  }

  /** One (file type, URL) pair of the `uploaded` dictionary. */
  function CheckOne(st: S3State, ftype: string, full: Value, probe: (string, string) -> Probe): S3Run {
    if !full.Str? then S3Run(st, Some(AttributeFault("object has no attribute 'replace'")), [])
    else match Locate(full.s)
      case None => S3Run(st, Some(ValueFault("not enough values to unpack")), [])
      case Some(loc) =>
        if Seen(st.seen, ftype, loc.key) then S3Run(st, None, [])
        else
          var answer := probe(loc.bucket, ProbeKey(loc.key));
          var fault := if answer.Unexpected? then Some(StoreFault(answer.message)) else None;
          S3Run(Probed(st.(seen := Remember(st.seen, ftype, loc.key)), ftype, full.s, loc.key, answer),
                fault, [Head(loc.bucket, ProbeKey(loc.key))])
  }

  /** What one pair does to the state: facts the loop lemmas rely on. */
  lemma CheckOneFacts(st: S3State, ftype: string, full: Value, probe: (string, string) -> Probe)
    ensures var one := CheckOne(st, ftype, full, probe);
      && |one.heads| <= 1
      && |one.state.outs| == |st.outs| + (if one.fault.None? then |one.heads| else 0)
      && one.state.outs[..|st.outs|] == st.outs
      && (forall f, k :: Seen(st.seen, f, k) ==> Seen(one.state.seen, f, k))
      && (forall f, k :: f != ftype ==> (Seen(one.state.seen, f, k) <==> Seen(st.seen, f, k)))
      && (one.fault.None? ==> KeyOf(full).Some? && Seen(one.state.seen, ftype, KeyOf(full).value))
      && (one.fault.None? ==> (|one.heads| == 1 <==> !Seen(st.seen, ftype, KeyOf(full).value)))
  {
    var one := CheckOne(st, ftype, full, probe);
    if full.Str? && Locate(full.s).Some? {
      var loc := Locate(full.s).value;
      assert KeyOf(full) == Some(loc.key);
      if !Seen(st.seen, ftype, loc.key) {
        var answer := probe(loc.bucket, ProbeKey(loc.key));
        var st1 := st.(seen := Remember(st.seen, ftype, loc.key));
        assert one.state == Probed(st1, ftype, full.s, loc.key, answer);
        assert forall f, k :: f != ftype ==> (Seen(st1.seen, f, k) <==> Seen(st.seen, f, k));
        if !answer.Unexpected? {
          assert |one.state.outs| == |st.outs| + 1;
        }
      }
    }
  }

  /** A probe sets a flag exactly when it was set or the probe added the matching entry. */
  lemma ProbedFlags(st: S3State, ftype: string, full: string, key: string, answer: Probe)
    ensures var r := Probed(st, ftype, full, key, answer);
      && (r.notFound <==> st.notFound || exists i :: |st.outs| <= i < |r.outs| && r.outs[i].Missing?)
      && (r.other <==> st.other || exists i :: |st.outs| <= i < |r.outs| && r.outs[i].Errored?)
  {
    var r := Probed(st, ftype, full, key, answer);
    var n := |st.outs|;
    if !answer.Unexpected? {
      assert forall i :: n <= i < |r.outs| ==> r.outs[i] == r.outs[n];
    }
  }

  /** One pair sets a flag exactly when it was set or its probe gave the matching entry. */
  lemma CheckOneFlags(st: S3State, ftype: string, full: Value, probe: (string, string) -> Probe)
    ensures var one := CheckOne(st, ftype, full, probe);
      && (one.state.notFound <==> st.notFound || exists i :: |st.outs| <= i < |one.state.outs| && one.state.outs[i].Missing?)
      && (one.state.other <==> st.other || exists i :: |st.outs| <= i < |one.state.outs| && one.state.outs[i].Errored?)
  {
    var one := CheckOne(st, ftype, full, probe);
    if full.Str? && Locate(full.s).Some? && !Seen(st.seen, ftype, Locate(full.s).value.key) {
      var loc := Locate(full.s).value;
      var answer := probe(loc.bucket, ProbeKey(loc.key));
      var st1 := st.(seen := Remember(st.seen, ftype, loc.key));
      assert one.state == Probed(st1, ftype, full.s, loc.key, answer);
      ProbedFlags(st1, ftype, full.s, loc.key, answer);
    } else {
      assert one.state == st;
    }
  }

  /** The whole `uploaded` dictionary, in its order; the first fault stops the loop. */
  function CheckAll(st: S3State, files: seq<(string, Value)>, probe: (string, string) -> Probe): S3Run
    decreases |files|
  {
    if files == [] then S3Run(st, None, [])
    else
      var one := CheckOne(st, files[0].0, files[0].1, probe);
      if one.fault.Some? then one
      else
        var rest := CheckAll(one.state, files[1..], probe);
        rest.(heads := one.heads + rest.heads)
  }

  /** A run as a step's outcome: its state, or the fault that stopped it, over the probes it issued. */
  function RunOutcome(run: S3Run): Outcome<S3State> {
    Outcome(if run.fault.Some? then Err(run.fault.value) else Ok(run.state), run.heads)
  }

  /** One pair aborts on an unexpected exception: only its probe can have raised, and then the fault carries its message. */
  lemma CheckOneAborts(env: Env, st: S3State, ftype: string, full: Value)
    ensures Aborts(env, RunOutcome(CheckOne(st, ftype, full, env.probe)))
  {
    var one := CheckOne(st, ftype, full, env.probe);
    if full.Str? && Locate(full.s).Some? {
      var loc := Locate(full.s).value;
      if !Seen(st.seen, ftype, loc.key) {
        var req := Head(loc.bucket, ProbeKey(loc.key));
        assert one.heads == [req] && one.heads[..0] == [];
        assert one.fault.Some? <==> Failed(env, req);
      }
    }
  }

  /**
   * The check aborts on an unexpected exception: when it runs through, no
   * probe raised; when it stops on a store fault, the last probe it issued
   * raised that message and none before it did.
   */
  lemma {:induction false} CheckAborts(env: Env, st: S3State, files: seq<(string, Value)>)
    ensures Aborts(env, RunOutcome(CheckAll(st, files, env.probe)))
    decreases |files|
  {
    if files != [] {
      var one := CheckOne(st, files[0].0, files[0].1, env.probe);
      CheckOneAborts(env, st, files[0].0, files[0].1);
      if one.fault.None? {
        var rest := CheckAll(one.state, files[1..], env.probe);
        CheckAborts(env, one.state, files[1..]);
        AbortsThen(env, RunOutcome(one), RunOutcome(rest), RunOutcome(rest).result);
      }
    }
  }

  /** The only requests the check issues are existence probes. */
  lemma {:induction false} OnlyProbes(st: S3State, files: seq<(string, Value)>, probe: (string, string) -> Probe)
    ensures forall r :: r in CheckAll(st, files, probe).heads ==> r.Head?
    decreases |files|
  {
    if files != [] {
      var one := CheckOne(st, files[0].0, files[0].1, probe);
      if one.fault.None? {
        OnlyProbes(one.state, files[1..], probe);
      }
    }
  }

  function Prefixed(heads: seq<Request>, run: S3Run): S3Run {
    run.(heads := heads + run.heads)
  }

  /** One step of the loop over the dictionary. */
  lemma CheckAllUnfold(st: S3State, files: seq<(string, Value)>, probe: (string, string) -> Probe)
    requires files != []
    ensures var one := CheckOne(st, files[0].0, files[0].1, probe);
      CheckAll(st, files, probe) == if one.fault.Some? then one else Prefixed(one.heads, CheckAll(one.state, files[1..], probe))
  {
  }

  /** Moving past one entry of the dictionary, or stopping at its fault. */
  lemma Advance(st: S3State, files: seq<(string, Value)>, i: nat, probe: (string, string) -> Probe, heads: seq<Request>)
    requires i < |files|
    ensures var one := CheckOne(st, files[i].0, files[i].1, probe);
      Prefixed(heads, CheckAll(st, files[i..], probe)) ==
        if one.fault.Some? then S3Run(one.state, one.fault, heads + one.heads)
        else Prefixed(heads + one.heads, CheckAll(one.state, files[i + 1..], probe))
  {
    CheckAllUnfold(st, files[i..], probe);
    assert files[i..][1..] == files[i + 1..];
  }

  /** The checker of one lookup: the caller creates it and calls `Check` once per record. */
  class ExistenceChecker {
    var seen: map<string, map<string, bool>>
    var outs: seq<Entry>
    var notFound: bool
    var other: bool

    function State(): S3State
      reads this
    {
      S3State(seen, outs, notFound, other)
    }

    constructor ()
      ensures State() == Fresh
    {
      seen, outs, notFound, other := map[], [], false, false;
    }

    /** The `try`/`except` around the probe: one output entry, and a flag for an error. */
    method Record(ftype: string, full: string, key: string, answer: Probe)
      modifies this
      ensures State() == Probed(old(State()), ftype, full, key, answer)
    {
      match answer {
        case Exists =>
          outs := outs + [Present(ftype, Link(full, Links.UrlText(full)))];
        case ClientError(code, message) =>
          if code == "404" {
            notFound := true;
            outs := outs + [Missing(ftype, key)];
          } else {
            other := true;
            outs := outs + [Errored(ftype, key, message)];
          }
        case Unexpected(_) =>
      }
    }

    /** One pass of the loop in `check_s3`; `heads` is the probe issued, if any. */
    method CheckEntry(ftype: string, full: Value, probe: (string, string) -> Probe) returns (heads: seq<Request>, fault: Option<Fault>)
      modifies this
      ensures CheckOne(old(State()), ftype, full, probe) == S3Run(State(), fault, heads)
    {
      if !full.Str? {
        return [], Some(AttributeFault("object has no attribute 'replace'"));
      }
      var split := SplitOnce(ReplaceAll(full.s, Links.S3Host, ""), '/');
      if split.None? {
        return [], Some(ValueFault("not enough values to unpack"));
      }
      var bucket, key := split.value.0, split.value.1;
      assert Locate(full.s) == Some(Location(bucket, key));
      if Seen(seen, ftype, key) {
        return [], None;
      }
      seen := Remember(seen, ftype, key);
      var answer := probe(bucket, ProbeKey(key));
      heads := [Head(bucket, ProbeKey(key))];
      Record(ftype, full.s, key, answer);
      fault := if answer.Unexpected? then Some(StoreFault(answer.message)) else None;
    }

    /** `check_s3(uploaded, s3files, outs3, errtype)`; `heads` are the probes issued. */
    method Check(files: seq<(string, Value)>, probe: (string, string) -> Probe) returns (heads: seq<Request>, fault: Option<Fault>)
      modifies this
      ensures CheckAll(old(State()), files, probe) == S3Run(State(), fault, heads)
    {
      heads, fault := [], None;
      var i := 0;
      while i < |files|
        invariant 0 <= i <= |files|
        invariant CheckAll(old(State()), files, probe) == Prefixed(heads, CheckAll(State(), files[i..], probe))
      {
        Advance(State(), files, i, probe, heads);
        var h, f := CheckEntry(files[i].0, files[i].1, probe);
        heads := heads + h;
        if f.Some? {
          fault := f;
          return;
        }
        i := i + 1;
      }
    }
  }

  /** Number of entries whose (file type, key) pair is not yet in `seen`. */
  function Unseen(seen: map<string, map<string, bool>>, files: seq<(string, Value)>): nat
    decreases |files|
  {
    if files == [] then 0
    else
      var n := Unseen(seen, files[1..]);
      match KeyOf(files[0].1)
      case Some(k) => if Seen(seen, files[0].0, k) then n else n + 1
      case None => n
  }

  /** The file types of a dictionary are distinct. */
  predicate DistinctTypes(files: seq<(string, Value)>) {
    forall i, j :: 0 <= i < j < |files| ==> files[i].0 != files[j].0
  }

  /** Output already collected is kept, and nothing recorded is forgotten. */
  lemma {:induction false} CheckKeeps(st: S3State, files: seq<(string, Value)>, probe: (string, string) -> Probe)
    ensures var run := CheckAll(st, files, probe);
      && |st.outs| <= |run.state.outs| && run.state.outs[..|st.outs|] == st.outs
      && (forall f, k :: Seen(st.seen, f, k) ==> Seen(run.state.seen, f, k))
    decreases |files|
  {
    if files != [] {
      var one := CheckOne(st, files[0].0, files[0].1, probe);
      CheckOneFacts(st, files[0].0, files[0].1, probe);
      if one.fault.None? {
        CheckKeeps(one.state, files[1..], probe);
        var run := CheckAll(st, files, probe);
        assert run.state.outs[..|one.state.outs|] == one.state.outs;
        assert run.state.outs[..|st.outs|] == one.state.outs[..|st.outs|];
      }
    }
  }

  /**
   * After a successful call every pair of `uploaded` is recorded and the
   * output has grown by one entry per probe: exactly one for each pair that
   * was not seen before.
   */
  lemma {:induction false} CheckRecordsAndCounts(st: S3State, files: seq<(string, Value)>, probe: (string, string) -> Probe)
    requires DistinctTypes(files)
    ensures var run := CheckAll(st, files, probe);
      run.fault.None? ==>
        && (forall i :: 0 <= i < |files| ==> KeyOf(files[i].1).Some? && Seen(run.state.seen, files[i].0, KeyOf(files[i].1).value))
        && |run.state.outs| == |st.outs| + |run.heads|
        && |run.heads| == Unseen(st.seen, files)
    decreases |files|
  {
    if files != [] {
      var one := CheckOne(st, files[0].0, files[0].1, probe);
      CheckOneFacts(st, files[0].0, files[0].1, probe);
      if one.fault.None? {
        var tail := files[1..];
        DistinctTypesTail(files);
        CheckRecordsAndCounts(one.state, tail, probe);
        CheckKeeps(one.state, tail, probe);
        UnseenOtherTypes(st.seen, one.state.seen, files[0].0, tail);
        var run := CheckAll(st, files, probe);
        if run.fault.None? {
          forall i | 0 <= i < |files|
            ensures KeyOf(files[i].1).Some? && Seen(run.state.seen, files[i].0, KeyOf(files[i].1).value)
          {
            if i > 0 {
              assert files[i] == tail[i - 1];
            }
          }
        }
      }
    }
  }

  /** The rest of a dictionary with distinct file types has distinct types, none of them the first one. */
  lemma DistinctTypesTail(files: seq<(string, Value)>)
    requires files != [] && DistinctTypes(files)
    ensures DistinctTypes(files[1..])
    ensures forall i :: 0 <= i < |files[1..]| ==> files[1..][i].0 != files[0].0
  {
    var tail := files[1..];
    forall i, j | 0 <= i < j < |tail| ensures tail[i].0 != tail[j].0 {
      assert tail[i] == files[i + 1] && tail[j] == files[j + 1];
    }
    forall i | 0 <= i < |tail| ensures tail[i].0 != files[0].0 {
      assert tail[i] == files[i + 1];
    }
  }

  /** Recording a pair of one file type does not change what is unseen for the other types. */
  lemma {:induction false} UnseenOtherTypes(before: map<string, map<string, bool>>, after: map<string, map<string, bool>>, ftype: string, files: seq<(string, Value)>)
    requires forall f, k :: f != ftype ==> (Seen(after, f, k) <==> Seen(before, f, k))
    requires forall i :: 0 <= i < |files| ==> files[i].0 != ftype
    ensures Unseen(after, files) == Unseen(before, files)
    decreases |files|
  {
    if files != [] {
      UnseenOtherTypes(before, after, ftype, files[1..]);
    }
  }

  /**
   * The `notfound` flag ends up set exactly when it was set before or a
   * probe answered 404; `other` exactly when it was set before or a probe
   * answered with another client error. A flag once set is never reset.
   */
  lemma {:induction false} FlagsSticky(st: S3State, files: seq<(string, Value)>, probe: (string, string) -> Probe)
    ensures var run := CheckAll(st, files, probe);
      && |st.outs| <= |run.state.outs|
      && (run.state.notFound <==> st.notFound || exists i :: |st.outs| <= i < |run.state.outs| && run.state.outs[i].Missing?)
      && (run.state.other <==> st.other || exists i :: |st.outs| <= i < |run.state.outs| && run.state.outs[i].Errored?)
    decreases |files|
  {
    if files != [] {
      var one := CheckOne(st, files[0].0, files[0].1, probe);
      CheckOneFacts(st, files[0].0, files[0].1, probe);
      CheckOneFlags(st, files[0].0, files[0].1, probe);
      if one.fault.None? {
        FlagsSticky(one.state, files[1..], probe);
        CheckKeeps(one.state, files[1..], probe);
        var run := CheckAll(st, files, probe);
        assert forall i :: |st.outs| <= i < |one.state.outs| ==> run.state.outs[i] == one.state.outs[i] by {
          assert run.state.outs[..|one.state.outs|] == one.state.outs;
        }
      }
    }
  }

  /**
   * Checking the same files a second time with the state the first check
   * left issues no probe, adds no entry and changes nothing: a pair reached
   * again through a later record is skipped.
   */
  lemma RepeatIsSkipped(st: S3State, files: seq<(string, Value)>, probe: (string, string) -> Probe)
    requires DistinctTypes(files)
    requires CheckAll(st, files, probe).fault.None?
    ensures var done := CheckAll(st, files, probe).state;
      CheckAll(done, files, probe) == S3Run(done, None, [])
  {
    CheckRecordsAndCounts(st, files, probe);
    var done := CheckAll(st, files, probe).state;
    AllSeenSkipped(done, files, probe);
  }

  /** Pairs that are all recorded already are skipped with no probe. */
  lemma {:induction false} AllSeenSkipped(st: S3State, files: seq<(string, Value)>, probe: (string, string) -> Probe)
    requires forall i :: 0 <= i < |files| ==> KeyOf(files[i].1).Some? && Seen(st.seen, files[i].0, KeyOf(files[i].1).value)
    ensures CheckAll(st, files, probe) == S3Run(st, None, [])
    decreases |files|
  {
    if files != [] {
      assert KeyOf(files[0].1).Some?;
      var loc := Locate(files[0].1.s).value;
      assert CheckOne(st, files[0].0, files[0].1, probe) == S3Run(st, None, []);
      AllSeenSkipped(st, files[1..], probe);
    }
  }
}

/**
  The record of which tests have already run for a given build
  (tools/tracker.py). The state file is read into and written from an
  in-memory map; the map is the `state` field of a `TestTracker`.
 */
module Tracker {

  /** A state entry: the build it describes and the tests run against it. */
  datatype Entry = Entry(framework: string, channel: string, buildType: string, version: string, tests: seq<string>)

  /** The state key of a build. The source keys on the SHA-1 digest of the
      concatenated strings; the digest is left out, so the key is the
      concatenation itself. */
  function HashKey(framework: string, channel: string, buildType: string, version: string): string {
    framework + channel + buildType + version
  }

  /** The state check_state consults: `test` is listed under the key. */
  predicate Check(state: map<string, Entry>, framework: string, channel: string, buildType: string,
                  version: string, test: string)
  {
    var key := HashKey(framework, channel, buildType, version);
    key in state && test in state[key].tests
  }

  /** The state update_state leaves behind. */
  function Updated(state: map<string, Entry>, framework: string, channel: string, buildType: string,
                   version: string, test: string): map<string, Entry>
  {
    var key := HashKey(framework, channel, buildType, version);
    var entry := if key in state then state[key] else Entry(framework, channel, buildType, version, []);
    state[key := if test in entry.tests then entry else entry.(tests := entry.tests + [test])]
  }

  class TestTracker {
    var state: map<string, Entry>

    /** No state file yet: the empty state. */
    constructor ()
      ensures state == map[]
    {
      state := map[];
    }

    /** check_state. */
    function CheckState(framework: string, channel: string, buildType: string, version: string,
                        test: string): (found: bool)
      reads this
      ensures found <==> Check(state, framework, channel, buildType, version, test)
    {
      var key := HashKey(framework, channel, buildType, version);
      if key in state then test in state[key].tests else false
    }

    /** update_state: find or create the entry for the build and add the
        test to it unless it is listed already. */
    method UpdateState(framework: string, channel: string, buildType: string, version: string, test: string)
      modifies this
      ensures state == Updated(old(state), framework, channel, buildType, version, test)
      ensures CheckState(framework, channel, buildType, version, test)
    {
      var key := HashKey(framework, channel, buildType, version);
      var entry: Entry;
      if key in state {
        entry := state[key];
      } else {
        entry := Entry(framework, channel, buildType, version, []);
        state := state[key := entry];
      }
      if test !in entry.tests {
        entry := entry.(tests := entry.tests + [test]);
      }
      state := state[key := entry];
      UpdateThenCheck(old(state), framework, channel, buildType, version, test);
    }
  }

  /** After an update, the check for the same build and test succeeds. */
  lemma UpdateThenCheck(state: map<string, Entry>, framework: string, channel: string, buildType: string,
                        version: string, test: string)
    ensures Check(Updated(state, framework, channel, buildType, version, test),
                  framework, channel, buildType, version, test)
  {
    var key := HashKey(framework, channel, buildType, version);
    var entry := if key in state then state[key] else Entry(framework, channel, buildType, version, []);
    if test !in entry.tests {
      assert (entry.tests + [test])[|entry.tests|] == test;
    }
  }

  /** Updating twice with the same test is updating once. */
  lemma UpdateIdempotent(state: map<string, Entry>, framework: string, channel: string, buildType: string,
                         version: string, test: string)
    ensures var once := Updated(state, framework, channel, buildType, version, test);
            Updated(once, framework, channel, buildType, version, test) == once
  {
    UpdateThenCheck(state, framework, channel, buildType, version, test);
  }

  /** A build seen for the first time gets an entry with its four fields
      and the one test. */
  lemma UpdateNewKey(state: map<string, Entry>, framework: string, channel: string, buildType: string,
                     version: string, test: string)
    requires HashKey(framework, channel, buildType, version) !in state
    ensures Updated(state, framework, channel, buildType, version, test)[HashKey(framework, channel, buildType, version)]
         == Entry(framework, channel, buildType, version, [test])
  {
  }

  /** Entries under other keys are untouched, and no key disappears. */
  lemma UpdateFrame(state: map<string, Entry>, framework: string, channel: string, buildType: string,
                    version: string, test: string, other: string)
    requires other != HashKey(framework, channel, buildType, version)
    ensures other in Updated(state, framework, channel, buildType, version, test) <==> other in state
    ensures other in state ==> Updated(state, framework, channel, buildType, version, test)[other] == state[other]
  {
  }

  /** A test list without repeats keeps none after an update. */
  lemma UpdateNoDuplicates(state: map<string, Entry>, framework: string, channel: string, buildType: string,
                           version: string, test: string)
    requires forall k :: k in state ==> NoRepeats(state[k].tests)
    ensures var s := Updated(state, framework, channel, buildType, version, test);
            forall k :: k in s ==> NoRepeats(s[k].tests)
  {
  }

  predicate NoRepeats(s: seq<string>) {
    forall i, j :: 0 <= i < j < |s| ==> s[i] != s[j]
  }

  /** The fields are concatenated without a separator, so two builds whose
      strings run together the same way share an entry: ("ab", "c", ..)
      and ("a", "bc", ..) are one build to the tracker. */
  lemma ConcatenationShared(state: map<string, Entry>, buildType: string, version: string, test: string)
    ensures Check(Updated(state, "ab", "c", buildType, version, test), "a", "bc", buildType, version, test)
  {
    assert HashKey("ab", "c", buildType, version) == HashKey("a", "bc", buildType, version);
    UpdateThenCheck(state, "ab", "c", buildType, version, test);
  }
}

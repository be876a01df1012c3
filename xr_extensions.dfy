// Extension negotiation shared by the two OpenXR hosts
// (shell/openxr/mobile/XrApp.cpp and shell/openxr/desktop/XrApp.cpp): an
// extension name is looked up in the runtime's list by string equality, and
// enabledExtensions_ receives each name it does not hold yet, in order.

module XrExtensions {
  /** No name occurs twice. */
  predicate NoDuplicates(s: seq<string>) {
    forall i, j :: 0 <= i < j < |s| ==> s[i] != s[j]
  }

  /** Every name of `required` is in the runtime's list. */
  predicate AllSupported(required: seq<string>, runtime: seq<string>) {
    forall k :: 0 <= k < |required| ==> required[k] in runtime
  }

  /** The names of `names` the runtime lists, in their order. */
  function Supported(names: seq<string>, runtime: seq<string>): (r: seq<string>)
    ensures |r| <= |names|
    ensures forall x :: x in r <==> x in names && x in runtime
  {
    if names == [] then []
    else (if names[0] in runtime then [names[0]] else []) + Supported(names[1..], runtime)
  }

  /** The names as a set. */
  function Names(s: seq<string>): (r: set<string>)
    ensures forall x :: x in r <==> x in s
  {
    set x | x in s
  }

  /** Each name in turn is pushed onto `enabled` unless it is already there. */
  function AppendMissing(enabled: seq<string>, names: seq<string>): seq<string>
    decreases |names|
  {
    if names == [] then enabled
    else AppendMissing(if names[0] in enabled then enabled else enabled + [names[0]], names[1..])
  }

  /**
   * AppendMissing keeps `enabled` as a prefix, adds exactly the names of
   * `names` it did not hold, and keeps a duplicate-free list duplicate-free.
   */
  lemma {:induction false} AppendMissingSpec(enabled: seq<string>, names: seq<string>)
    ensures var r := AppendMissing(enabled, names);
      && |enabled| <= |r| && r[..|enabled|] == enabled
      && (forall x :: x in r <==> x in enabled || x in names)
      && (NoDuplicates(enabled) ==> NoDuplicates(r))
    decreases |names|
  {
    if names != [] {
      var next := if names[0] in enabled then enabled else enabled + [names[0]];
      AppendMissingSpec(next, names[1..]);
      var r := AppendMissing(next, names[1..]);
      assert r[..|enabled|] == next[..|next|][..|enabled|];
      assert forall x :: x in names <==> x == names[0] || x in names[1..] by {
        assert names == [names[0]] + names[1..];
      }
    }
  }

  /** Pushing names that are all enabled already changes nothing. */
  lemma {:induction false} AppendMissingNothingNew(enabled: seq<string>, names: seq<string>)
    requires forall x :: x in names ==> x in enabled
    ensures AppendMissing(enabled, names) == enabled
    decreases |names|
  {
    if names != [] {
      assert names[0] in names;
      assert forall x :: x in names[1..] ==> x in names;
      AppendMissingNothingNew(enabled, names[1..]);
    }
  }

  /**
   * The list checkExtensions leaves (the required names, then the supported
   * optional ones) starts with what was enabled before, holds exactly those
   * names, the required ones and the optional ones the runtime lists, and
   * names none twice when the earlier list did not.
   */
  lemma NegotiatedExtensions(enabled: seq<string>, required: seq<string>, optional: seq<string>, runtime: seq<string>)
    ensures var r := AppendMissing(AppendMissing(enabled, required), Supported(optional, runtime));
      && |enabled| <= |r| && r[..|enabled|] == enabled
      && (forall x :: x in r <==> x in enabled || x in required || (x in optional && x in runtime))
      && (NoDuplicates(enabled) ==> NoDuplicates(r))
  {
    var e1 := AppendMissing(enabled, required);
    AppendMissingSpec(enabled, required);
    AppendMissingSpec(e1, Supported(optional, runtime));
    var r := AppendMissing(e1, Supported(optional, runtime));
    assert r[..|enabled|] == r[..|e1|][..|enabled|];
  }

  /** The loop over the required names: true iff each is in the runtime's list. */
  method CheckRequired(required: seq<string>, runtime: seq<string>) returns (ok: bool)
    ensures ok <==> AllSupported(required, runtime)
  {
    var i := 0;
    while i < |required|
      invariant 0 <= i <= |required|
      invariant forall k :: 0 <= k < i ==> required[k] in runtime
    {
      if required[i] !in runtime {
        return false;
      }
      i := i + 1;
    }
    return true;
  }

  /** The loop enabling the required names: each one not enabled yet is pushed, in order. */
  method EnableRequired(enabled: seq<string>, required: seq<string>) returns (r: seq<string>)
    ensures r == AppendMissing(enabled, required)
  {
    r := enabled;
    var i := 0;
    while i < |required|
      invariant 0 <= i <= |required|
      invariant AppendMissing(r, required[i..]) == AppendMissing(enabled, required)
    {
      assert required[i..][1..] == required[i + 1..];
      if required[i] !in r {
        r := r + [required[i]];
      }
      i := i + 1;
    }
  }

  /** Filtering a list extended by one name extends the filtered list by that name when the runtime lists it. */
  lemma {:induction false} SupportedAppend(names: seq<string>, x: string, runtime: seq<string>)
    ensures Supported(names + [x], runtime) == Supported(names, runtime) + (if x in runtime then [x] else [])
    decreases |names|
  {
    var tail := if x in runtime then [x] else [];
    if names == [] {
      assert names + [x] == [x] && [x][1..] == [];
    } else {
      var head := if names[0] in runtime then [names[0]] else [];
      assert (names + [x])[0] == names[0];
      assert (names + [x])[1..] == names[1..] + [x];
      SupportedAppend(names[1..], x, runtime);
      assert Supported(names + [x], runtime) == head + (Supported(names[1..], runtime) + tail);
      assert head + (Supported(names[1..], runtime) + tail) == (head + Supported(names[1..], runtime)) + tail;
    }
  }
}

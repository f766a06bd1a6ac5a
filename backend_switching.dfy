/**
 * `switch_inference_backend` and `unload_model` of evaluation/models/models.py.
 *
 * The unload functions of the four backends live in modules that are not part
 * of this model; calling one is represented by appending the backend's name to
 * `unloadTrace`, so the model states which unloaders run and in what order.
 */
module BackendSwitching {
  import opened Wrappers
  import opened Sequences
  import InferenceBackends

  const Fastchat := "fastchat"

  /** The keys of `unload_backend_fns`, in insertion (and so iteration) order. */
  const UnloadOrder: seq<string> :=
    [InferenceBackends.HfTransformers, InferenceBackends.Vllm, InferenceBackends.Tgi, Fastchat]

  /** `s` with every element equal to `skip` left out, the rest in order. `None` skips nothing,
      as Python's `None` equals no backend name. */
  function Without(s: seq<string>, skip: Option<string>): seq<string>
  {
    if s == [] then []
    else Without(s[..|s| - 1], skip) + Keep(s[|s| - 1], skip)
  }

  /**
   * The unloaders `switch_inference_backend(newBackend)` calls, in call order:
   * every unloader except the new backend's, each once, in table order.
   */
  function UnloadsFor(newBackend: Option<string>): (r: seq<string>)
    ensures newBackend.Some? ==> newBackend.value !in r
    ensures newBackend.Some? && newBackend.value in UnloadOrder ==> |r| == |UnloadOrder| - 1
    ensures newBackend.None? || newBackend.value !in UnloadOrder ==> r == UnloadOrder
    ensures NoDuplicates(r)
    ensures IsSubsequence(r, UnloadOrder)
  {
    TableWithout(newBackend);
    Without(UnloadOrder, newBackend)
  }

  /** The facts `UnloadsFor` promises, proved on the unload table. */
  lemma TableWithout(newBackend: Option<string>)
    ensures var r := Without(UnloadOrder, newBackend);
            && (newBackend.Some? ==> newBackend.value !in r)
            && (newBackend.Some? && newBackend.value in UnloadOrder ==> |r| == |UnloadOrder| - 1)
            && (newBackend.None? || newBackend.value !in UnloadOrder ==> r == UnloadOrder)
            && NoDuplicates(r)
            && IsSubsequence(r, UnloadOrder)
  {
    if newBackend.Some? {
      WithoutMembers(UnloadOrder, newBackend, newBackend.value);
      if newBackend.value in UnloadOrder {
        WithoutLength(UnloadOrder, newBackend.value);
      }
    }
    if newBackend.None? || newBackend.value !in UnloadOrder {
      UnknownBackendUnloadsAll(UnloadOrder, newBackend);
    }
    WithoutNoDuplicates(UnloadOrder, newBackend);
    WithoutIsSubsequence(UnloadOrder, newBackend);
  }

  /** Exactly the elements of `s` other than `skip` remain. */
  lemma {:induction false} WithoutMembers(s: seq<string>, skip: Option<string>, x: string)
    ensures x in Without(s, skip) <==> x in s && Some(x) != skip
  {
    if s != [] {
      WithoutMembers(s[..|s| - 1], skip, x);
      assert s == s[..|s| - 1] + [s[|s| - 1]];
    }
  }

  /** Leaving out an element that occurs once shortens the sequence by one. */
  lemma {:induction false} WithoutLength(s: seq<string>, x: string)
    requires NoDuplicates(s) && x in s
    ensures |Without(s, Some(x))| == |s| - 1
  {
    var init, last := s[..|s| - 1], s[|s| - 1];
    assert NoDuplicates(init);
    if last == x {
      assert x !in init;
      UnknownBackendUnloadsAll(init, Some(x));
    } else {
      assert s == init + [last];
      WithoutLength(init, x);
    }
  }

  /** The elements that remain keep their relative order. */
  lemma {:induction false} WithoutIsSubsequence(s: seq<string>, skip: Option<string>)
    ensures IsSubsequence(Without(s, skip), s)
  {
    if s != [] {
      var init, last := s[..|s| - 1], s[|s| - 1];
      var rest := Without(init, skip);
      WithoutIsSubsequence(init, skip);
      if Some(last) == skip {
        assert Without(s, skip) == rest;
        SubsequenceOfPrefix(rest, s);
      } else {
        var r := rest + [last];
        assert Without(s, skip) == r;
        assert r[..|r| - 1] == rest && r[|r| - 1] == last;
      }
    }
  }

  /** A subsequence of `s[..|s| - 1]` is a subsequence of `s`. */
  lemma {:induction false} SubsequenceOfPrefix(r: seq<string>, s: seq<string>)
    requires s != [] && IsSubsequence(r, s[..|s| - 1])
    ensures IsSubsequence(r, s)
    decreases |s|, 0
  {
    var init := s[..|s| - 1];
    if r != [] && r[|r| - 1] == s[|s| - 1] {
      // the last element of r is matched against the last of s instead
      SubsequenceDropLast(r, init);
    }
  }

  /** Dropping the last element of a subsequence leaves a subsequence. */
  lemma {:induction false} SubsequenceDropLast(r: seq<string>, s: seq<string>)
    requires r != [] && IsSubsequence(r, s)
    ensures IsSubsequence(r[..|r| - 1], s)
    decreases |s|, 1
  {
    assert s != [];
    var init := s[..|s| - 1];
    if r[|r| - 1] == s[|s| - 1] {
      assert IsSubsequence(r[..|r| - 1], init);
      SubsequenceOfPrefix(r[..|r| - 1], s);
    } else {
      SubsequenceDropLast(r, init);
      SubsequenceOfPrefix(r[..|r| - 1], s);
    }
  }

  /** Filtering a sequence without repetitions leaves none. */
  lemma {:induction false} WithoutNoDuplicates(s: seq<string>, skip: Option<string>)
    requires NoDuplicates(s)
    ensures NoDuplicates(Without(s, skip))
  {
    if s != [] {
      var init := s[..|s| - 1];
      var last := s[|s| - 1];
      assert NoDuplicates(init);
      WithoutNoDuplicates(init, skip);
      WithoutMembers(init, skip, last);
      assert last !in init;
    }
  }

  /** A name outside the table (including `None`) unloads all four backends in table order. */
  lemma {:induction false} UnknownBackendUnloadsAll(s: seq<string>, newBackend: Option<string>)
    requires newBackend.None? || newBackend.value !in s
    ensures Without(s, newBackend) == s
  {
    if s != [] {
      UnknownBackendUnloadsAll(s[..|s| - 1], newBackend);
      assert s == s[..|s| - 1] + [s[|s| - 1]];
    }
  }

  /** Switching to the backend at index `k` of the table calls the other three, in table order. */
  lemma SwitchSkipping(k: nat)
    requires k < |UnloadOrder|
    ensures UnloadsFor(Some(UnloadOrder[k])) == UnloadOrder[..k] + UnloadOrder[k + 1..]
  {
    var b := UnloadOrder[k];
    UnloadsForUnfolded(Some(b));
    var u := UnloadOrder;
    assert u[0] != u[1] && u[0] != u[2] && u[0] != u[3] && u[1] != u[2] && u[1] != u[3] && u[2] != u[3];
  }

  /** The loop of `switch_inference_backend` unrolled: one optional call per table entry. */
  lemma UnloadsForUnfolded(newBackend: Option<string>)
    ensures Without(UnloadOrder, newBackend) ==
              Keep(UnloadOrder[0], newBackend) + Keep(UnloadOrder[1], newBackend) +
              Keep(UnloadOrder[2], newBackend) + Keep(UnloadOrder[3], newBackend)
  {
    var u := UnloadOrder;
    var p1, p2, p3 := [u[0]], [u[0], u[1]], [u[0], u[1], u[2]];
    assert p1[..0] == [];
    assert Without(p1, newBackend) == Keep(u[0], newBackend);
    assert p2[..1] == p1;
    assert Without(p2, newBackend) == Without(p1, newBackend) + Keep(u[1], newBackend);
    assert p3[..2] == p2;
    assert Without(p3, newBackend) == Without(p2, newBackend) + Keep(u[2], newBackend);
    assert u[..3] == p3;
  }

  /** The call the loop makes for one table entry: none for the skipped backend. */
  function Keep(backend: string, skip: Option<string>): seq<string>
  {
    if Some(backend) == skip then [] else [backend]
  }

  /** The state the unloaders act on: the calls made to them so far. */
  class BackendRuntime {
    var unloadTrace: seq<string>

    constructor ()
      ensures unloadTrace == []
    {
      unloadTrace := [];
    }

    /** Calls the `unload_model` function of one backend. */
    method Unload(backend: string)
      modifies this
      ensures unloadTrace == old(unloadTrace) + [backend]
    {
      unloadTrace := unloadTrace + [backend];
    }

    /** `switch_inference_backend(new_inference_backend)`. */
    method SwitchInferenceBackend(newBackend: Option<string>)
      modifies this
      ensures unloadTrace == old(unloadTrace) + UnloadsFor(newBackend)
    {
      for i := 0 to |UnloadOrder|
        invariant unloadTrace == old(unloadTrace) + Without(UnloadOrder[..i], newBackend)
      {
        assert UnloadOrder[..i + 1][..i] == UnloadOrder[..i];
        if Some(UnloadOrder[i]) == newBackend {
          continue;
        }
        Unload(UnloadOrder[i]);
      }
      assert UnloadOrder[..|UnloadOrder|] == UnloadOrder;
    }

    /** `unload_model()`: switching to no backend at all unloads every backend, in table order. */
    method UnloadModel()
      modifies this
      ensures unloadTrace == old(unloadTrace) + UnloadOrder
    {
      SwitchInferenceBackend(None);
      UnknownBackendUnloadsAll(UnloadOrder, None);
    }
  }
}

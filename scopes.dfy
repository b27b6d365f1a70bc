/** Permission scopes as the Graph API reports them: a map from scope name to a flag, where only
    the flag 1 means "granted". */
module Scopes {

  type Grants = map<string, int>

  /** A scope is granted only when it is present and its flag is exactly 1. */
  predicate Granted(granted: Grants, scope: string)
  {
    scope in granted && granted[scope] == 1
  }

  /** The required scopes that are not granted, in the order in which they are required. */
  function Missing(required: seq<string>, granted: Grants): (r: seq<string>)
    ensures |r| <= |required|
    decreases |required|
  {
    if required == [] then []
    else
      var last := required[|required| - 1];
      Missing(required[..|required| - 1], granted) + (if Granted(granted, last) then [] else [last])
  }

  /** Some listed scope is granted. */
  predicate AnyGranted(scopes: seq<string>, granted: Grants)
  {
    exists i :: 0 <= i < |scopes| && Granted(granted, scopes[i])
  }

  /** `r` can be obtained from `s` by deleting elements, keeping the order of the rest. */
  predicate IsSubsequence(r: seq<string>, s: seq<string>)
    decreases |s|
  {
    if r == [] then true
    else if s == [] then false
    else if r[|r| - 1] == s[|s| - 1] then IsSubsequence(r[..|r| - 1], s[..|s| - 1])
    else IsSubsequence(r, s[..|s| - 1])
  }

  /** A scope is reported missing exactly when it is required and not granted. */
  lemma {:induction false} MissingMembers(required: seq<string>, granted: Grants, x: string)
    ensures x in Missing(required, granted) <==> x in required && !Granted(granted, x)
    decreases |required|
  {
    if required != [] {
      var init := required[..|required| - 1];
      MissingMembers(init, granted, x);
      assert required == init + [required[|required| - 1]];
    }
  }

  /** Nothing is missing exactly when every required scope is granted; the empty list, not a
      boolean, is the success signal. */
  lemma MissingEmptyIff(required: seq<string>, granted: Grants)
    ensures Missing(required, granted) == [] <==> forall i :: 0 <= i < |required| ==> Granted(granted, required[i])
  {
    if Missing(required, granted) == [] {
      forall i | 0 <= i < |required| ensures Granted(granted, required[i]) {
        MissingMembers(required, granted, required[i]);
      }
    } else {
      var x := Missing(required, granted)[0];
      MissingMembers(required, granted, x);
      var i :| 0 <= i < |required| && required[i] == x;
    }
  }

  /** The missing scopes keep the order in which they were required. */
  lemma {:induction false} MissingIsSubsequence(required: seq<string>, granted: Grants)
    ensures IsSubsequence(Missing(required, granted), required)
    decreases |required|
  {
    if required != [] {
      var init := required[..|required| - 1];
      var last := required[|required| - 1];
      var r := Missing(required, granted);
      MissingIsSubsequence(init, granted);
      if Granted(granted, last) && r != [] {
        assert r == Missing(init, granted);
        assert r[|r| - 1] in r;
        MissingMembers(init, granted, r[|r| - 1]);
        assert r[|r| - 1] != required[|required| - 1];
      }
    }
  }

  /** Filtering distributes over concatenation: the decision for one scope never depends on
      the scopes around it. */
  lemma {:induction false} MissingConcat(a: seq<string>, b: seq<string>, granted: Grants)
    ensures Missing(a + b, granted) == Missing(a, granted) + Missing(b, granted)
    decreases |b|
  {
    if b == [] {
      assert a + b == a;
    } else {
      var init := b[..|b| - 1];
      assert (a + b)[..|a + b| - 1] == a + init;
      MissingConcat(a, init, granted);
    }
  }

  /** An any-of check passes exactly when at least one listed scope is not missing. */
  lemma {:induction false} AnyGrantedIffNotAllMissing(scopes: seq<string>, granted: Grants)
    ensures AnyGranted(scopes, granted) <==> |Missing(scopes, granted)| < |scopes|
    decreases |scopes|
  {
    if scopes != [] {
      var init := scopes[..|scopes| - 1];
      var last := scopes[|scopes| - 1];
      AnyGrantedIffNotAllMissing(init, granted);
      if AnyGranted(init, granted) {
        var i :| 0 <= i < |init| && Granted(granted, init[i]);
        assert scopes[i] == init[i];
      }
      if AnyGranted(scopes, granted) && !Granted(granted, last) {
        var i :| 0 <= i < |scopes| && Granted(granted, scopes[i]);
        assert i < |init| && init[i] == scopes[i];
      }
      if Granted(granted, last) {
        assert scopes[|scopes| - 1] == last;
      }
    }
  }

  /** The any-of check is not an all-of check: one granted scope suffices even when another is
      missing. */
  lemma AnyGrantedIsNotAllGranted()
    ensures AnyGranted(["publish_stream", "email"], map["email" := 1])
    ensures Missing(["publish_stream", "email"], map["email" := 1]) == ["publish_stream"]
  {
    var scopes := ["publish_stream", "email"];
    assert Granted(map["email" := 1], scopes[1]);
    assert scopes[..1] == ["publish_stream"];
    assert scopes[..1][..0] == [];
  }
}

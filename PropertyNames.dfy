/**
 * The structural comparison used by the tests to check a response against a
 * DTO: every property name of the reference exists in the object, recursively.
 */
module PropertyNames {
  import opened Js
  import opened JsonValue

  /**
   * `hasSamePropertyNames(obj, ref)`: a reference that is not an object (or is
   * null) accepts anything; otherwise `obj` must be an object holding every key
   * of `ref`, with the values at each key again satisfying the check.
   */
  predicate HasSamePropertyNames(obj: Value, ref: Value)
    decreases ref
  {
    if !IsObject(ref) then true
    else if !IsObject(obj) then false
    else forall k :: k in Keys(ref) ==> k in Keys(obj) && HasSamePropertyNames(Get(obj, k), Get(ref, k))
  }

  /** A reference that is not an object, or is null, accepts every value. */
  lemma NonObjectReference(obj: Value, ref: Value)
    requires !IsObject(ref)
    ensures HasSamePropertyNames(obj, ref)
  {
  }

  /** An object reference rejects every value that is not an object. */
  lemma NonObjectCandidate(obj: Value, ref: Value)
    requires IsObject(ref) && !IsObject(obj)
    ensures !HasSamePropertyNames(obj, ref)
  {
  }

  /** An object reference without keys accepts every object. */
  lemma KeylessReference(obj: Value, ref: Value)
    requires IsObject(ref) && Keys(ref) == {} && IsObject(obj)
    ensures HasSamePropertyNames(obj, ref)
  {
  }

  /** An empty object fails against a reference that has a key. */
  lemma EmptyCandidate(ref: Value)
    requires IsObject(ref) && Keys(ref) != {}
    ensures !HasSamePropertyNames(Obj(map[]), ref)
  {
    var k :| k in Keys(ref);
    assert k !in Keys(Obj(map[]));
  }

  /** Every value has the property names of itself. */
  lemma {:induction false} Reflexive(v: Value)
    ensures HasSamePropertyNames(v, v)
    decreases v
  {
    if IsObject(v) {
      forall k | k in Keys(v)
        ensures HasSamePropertyNames(Get(v, k), Get(v, k))
      {
        Reflexive(Get(v, k));
      }
    }
  }

  /** The check is transitive: it is a preorder on values. */
  lemma {:induction false} Transitive(a: Value, b: Value, c: Value)
    requires HasSamePropertyNames(a, b) && HasSamePropertyNames(b, c)
    ensures HasSamePropertyNames(a, c)
    decreases c
  {
    if IsObject(c) {
      forall k | k in Keys(c)
        ensures k in Keys(a) && HasSamePropertyNames(Get(a, k), Get(c, k))
      {
        Transitive(Get(a, k), Get(b, k), Get(c, k));
      }
    }
  }

  /** Keys of `obj` that `ref` does not have never change the result. */
  lemma ExtraKeys(props: map<string, Value>, extra: map<string, Value>, ref: Value)
    requires extra.Keys !! Keys(ref)
    ensures HasSamePropertyNames(Obj(props + extra), ref) == HasSamePropertyNames(Obj(props), ref)
  {
    if IsObject(ref) {
      forall k | k in Keys(ref)
        ensures Get(Obj(props + extra), k) == Get(Obj(props), k)
        ensures k in Keys(Obj(props + extra)) <==> k in Keys(Obj(props))
      {
      }
    }
  }

  /** The two assertions at the end of the source file. */
  lemma SourceFileAssertions()
    ensures var ref := Obj(map["content" := Str(""), "locale" := Str("")]);
            && HasSamePropertyNames(Obj(map["locale" := Str(""), "content" := Str(""), "another" := Str("")]), ref)
            && !HasSamePropertyNames(Obj(map[]), ref)
  {
    var ref := Obj(map["content" := Str(""), "locale" := Str("")]);
    assert "content" in Keys(ref);
    EmptyCandidate(ref);
  }
}

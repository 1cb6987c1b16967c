/**
 * The condition under which the readers leave no SL buffer behind: every call that fails the
 * reader's guard (an error HRESULT, an empty result, or a value of another type than the one
 * read) returns a null pointer. Each value name is read with one type throughout the readers.
 */
module NativeContract {
  import opened Guids
  import opened SlApi
  import opened SlValues
  import opened SlStatus

  /** The values the readers read as `SL_DATA_DWORD`. */
  const DwordNames: set<string> := {
    "VLActivationType", "KeyManagementServicePort", "DiscoveredKeyManagementServicePort",
    "VLActivationInterval", "VLRenewalInterval", "DisableKeyManagementServiceHostCaching" }

  /** The values the readers read as an int64 (`SL_DATA_BINARY`). */
  const Int64Names: set<string> := { "InheritedActivationActivationTime" }

  /** The tag a reader expects for a value name; every other name is read as a string. */
  function ExpectedTag(name: string): nat {
    if name in DwordNames then SL_DATA_DWORD
    else if name in Int64Names then SL_DATA_BINARY
    else SL_DATA_SZ
  }

  /** A non-null pointer only ever comes with a result the reader accepts. */
  predicate NullOnFailure(env: Env) {
    && (env.idList.nonNull ==> env.idList.hr == S_OK && |env.idList.ids| > 0)
    && (forall sku :: sku in env.status ==> (env.status[sku].nonNull ==> Readable(env.status[sku])))
    && (forall k :: k in env.values ==> (env.values[k].nonNull ==> Accepts(env.values[k], ExpectedTag(k.1))))
  }

  /** Under that condition a status read leaves nothing behind. */
  lemma NoStatusLeak(env: Env, sku: Guid)
    requires NullOnFailure(env)
    ensures StatusLeak(env.StatusOf(sku)) == 0
  {
    if sku in env.status {
      assert env.status[sku].nonNull ==> Readable(env.status[sku]);
    }
  }

  /** Nor does a value read with the tag its name is read with. */
  lemma NoValueLeak(env: Env, target: Target, name: string)
    requires NullOnFailure(env)
    ensures ValueLeak(env, target, name, ExpectedTag(name)) == 0
  {
    var k := (target, name);
    if k in env.values {
      assert env.values[k].nonNull ==> Accepts(env.values[k], ExpectedTag(k.1));
    }
  }

  /** Nor any number of status reads. */
  lemma {:induction false} NoStatusLeaks(env: Env, ids: seq<Guid>)
    requires NullOnFailure(env)
    ensures StatusLeaks(env, ids) == 0
  {
    if |ids| > 0 {
      NoStatusLeaks(env, ids[..|ids| - 1]);
      NoStatusLeak(env, ids[|ids| - 1]);
    }
  }
}

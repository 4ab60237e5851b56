/** The studio's pool of API keys (MainApp.tsx): the status change behind
    `updateKeyStatus`, the persisted subset `storeApiKeys`, the read-back
    `getStoredApiKeys`, the boot-time assembly with the system key first, the
    add / import / remove / clear edits and the start gate `hasApiKeyIssue`.
    The pool is a value here: every edit returns the new pool, as the React
    setters do. */
module KeyPool {
  import opened Types
  import opened Seqs
  import opened Text

  /** JavaScript truthiness of an optional string: present and not empty. */
  predicate Truthy(o: Option<string>) {
    o.Some? && o.value != ""
  }

  /** `o || fallback` for an optional string. */
  function Or(o: Option<string>, fallback: string): string {
    if Truthy(o) then o.value else fallback
  }

  // ---------------------------------------------------------------------
  // Lookup and the rotation candidates
  // ---------------------------------------------------------------------

  /** `k` is the first position of `pool` holding a key with this id. */
  predicate FirstWithId(pool: seq<ApiKey>, id: string, k: int) {
    0 <= k < |pool| && pool[k].id == id && forall j :: 0 <= j < k ==> pool[j].id != id
  }

  /** `pool.find(k => k.id === id)`: the first key with that id, if any. */
  function FindById(pool: seq<ApiKey>, id: string): (r: Option<ApiKey>)
    ensures r.None? <==> forall k :: 0 <= k < |pool| ==> pool[k].id != id
    ensures r.Some? ==> exists k :: FirstWithId(pool, id, k) && pool[k] == r.value
    decreases |pool|
  {
    if pool == [] then None
    else if pool[0].id == id then
      assert FirstWithId(pool, id, 0);
      Some(pool[0])
    else
      var r := FindById(pool[1..], id);
      if r.Some? then
        var k :| FirstWithId(pool[1..], id, k) && pool[1..][k] == r.value;
        assert FirstWithId(pool, id, k + 1);
        r
      else r
  }

  /** `apiKeys.filter(k => k.status === 'active' || k.status === 'unvalidated')`:
      the keys rotation may try, in pool order. */
  function Candidates(pool: seq<ApiKey>): (r: seq<ApiKey>)
    ensures forall k :: 0 <= k < |r| ==> r[k] in pool && Usable(r[k])
    ensures forall k :: 0 <= k < |pool| && Usable(pool[k]) ==> pool[k] in r
  {
    Filter(pool, Usable)
  }

  // ---------------------------------------------------------------------
  // Status writes (updateKeyStatus, MainApp.tsx:1018-1024)
  // ---------------------------------------------------------------------

  /** A status change `updateKeyStatus(keyId, newStatus)` asks for. */
  datatype StatusWrite = StatusWrite(keyId: string, status: ApiKeyStatus)

  /** Two keys agree on everything except, possibly, the status. */
  predicate SameKeyExceptStatus(a: ApiKey, b: ApiKey) {
    a.id == b.id && a.value == b.value && a.masked == b.masked && a.isSystem == b.isSystem
  }

  /** `prev.map(k => k.id === keyId ? { ...k, status: newStatus } : k)`:
      same length and order; only the status of keys with that id moves. */
  function UpdateKeyStatus(pool: seq<ApiKey>, keyId: string, status: ApiKeyStatus): (r: seq<ApiKey>)
    ensures |r| == |pool|
    ensures forall k :: 0 <= k < |r| ==> SameKeyExceptStatus(r[k], pool[k])
    ensures forall k :: 0 <= k < |r| && pool[k].id == keyId ==> r[k].status == status
    ensures forall k :: 0 <= k < |r| && pool[k].id != keyId ==> r[k] == pool[k]
  {
    Map(pool, (k: ApiKey) => if k.id == keyId then k.(status := status) else k)
  }

  /** The writes applied one after the other, as the queued `setApiKeys`
      updaters run. */
  function ApplyWrites(pool: seq<ApiKey>, writes: seq<StatusWrite>): seq<ApiKey>
    decreases |writes|
  {
    if writes == [] then pool
    else
      var w := writes[|writes| - 1];
      UpdateKeyStatus(ApplyWrites(pool, writes[..|writes| - 1]), w.keyId, w.status)
  }

  /** The status the last write naming `id` sets, if any write names it. */
  function LastWrite(writes: seq<StatusWrite>, id: string): Option<ApiKeyStatus>
    decreases |writes|
  {
    if writes == [] then None
    else if writes[|writes| - 1].keyId == id then Some(writes[|writes| - 1].status)
    else LastWrite(writes[..|writes| - 1], id)
  }

  /** After a series of writes every key keeps its id, value, mask, system
      flag and position, and its status is the one of the last write naming
      it (unchanged when none does). */
  lemma {:induction false} ApplyWritesEffect(pool: seq<ApiKey>, writes: seq<StatusWrite>)
    ensures |ApplyWrites(pool, writes)| == |pool|
    ensures forall k :: 0 <= k < |pool| ==>
              SameKeyExceptStatus(ApplyWrites(pool, writes)[k], pool[k]) &&
              ApplyWrites(pool, writes)[k].status == LastWrite(writes, pool[k].id).GetOr(pool[k].status)
    decreases |writes|
  {
    if writes != [] {
      ApplyWritesEffect(pool, writes[..|writes| - 1]);
    }
  }

  /** Applying two batches of writes is applying their concatenation. */
  lemma {:induction false} ApplyWritesConcat(pool: seq<ApiKey>, w1: seq<StatusWrite>, w2: seq<StatusWrite>)
    ensures ApplyWrites(pool, w1 + w2) == ApplyWrites(ApplyWrites(pool, w1), w2)
    decreases |w2|
  {
    if w2 == [] {
      assert w1 + w2 == w1;
    } else {
      assert (w1 + w2)[..|w1 + w2| - 1] == w1 + w2[..|w2| - 1];
      ApplyWritesConcat(pool, w1, w2[..|w2| - 1]);
    }
  }

  // ---------------------------------------------------------------------
  // Persistence (storeApiKeys, MainApp.tsx:629-632)
  // ---------------------------------------------------------------------

  /** `keys.filter(k => !k.isSystem)`: what `storeApiKeys` writes, in order. */
  function Persisted(pool: seq<ApiKey>): (r: seq<ApiKey>)
    ensures forall k :: 0 <= k < |r| ==> r[k] in pool && !r[k].isSystem
    ensures forall k :: 0 <= k < |pool| && !pool[k].isSystem ==> pool[k] in r
  {
    Filter(pool, IsUserKey)
  }

  /** Storing what was stored changes nothing. */
  lemma PersistedIdempotent(pool: seq<ApiKey>)
    ensures Persisted(Persisted(pool)) == Persisted(pool)
  {
    FilterKeepsAll(Persisted(pool), IsUserKey);
  }

  lemma UpdateKeyStatusConcat(a: seq<ApiKey>, b: seq<ApiKey>, keyId: string, status: ApiKeyStatus)
    ensures UpdateKeyStatus(a + b, keyId, status) == UpdateKeyStatus(a, keyId, status) + UpdateKeyStatus(b, keyId, status)
  {
    var l := UpdateKeyStatus(a + b, keyId, status);
    var r := UpdateKeyStatus(a, keyId, status) + UpdateKeyStatus(b, keyId, status);
    assert forall k :: 0 <= k < |l| ==> l[k] == r[k] by {
      forall k | 0 <= k < |l| ensures l[k] == r[k] {
        if k < |a| {
          assert (a + b)[k] == a[k];
        } else {
          assert (a + b)[k] == b[k - |a|];
        }
      }
    }
  }

  /** Persisting after a status change is changing the persisted list: a
      status write reaches storage exactly for a user key. */
  lemma {:induction false} PersistedAfterUpdate(pool: seq<ApiKey>, keyId: string, status: ApiKeyStatus)
    ensures Persisted(UpdateKeyStatus(pool, keyId, status)) == UpdateKeyStatus(Persisted(pool), keyId, status)
    decreases |pool|
  {
    if pool != [] {
      var u := UpdateKeyStatus(pool, keyId, status);
      var head := if IsUserKey(pool[0]) then [pool[0]] else [];
      var uhead := if IsUserKey(u[0]) then [u[0]] else [];
      assert u[1..] == UpdateKeyStatus(pool[1..], keyId, status);
      assert Persisted(u) == uhead + Persisted(u[1..]);
      assert Persisted(pool) == head + Persisted(pool[1..]);
      PersistedAfterUpdate(pool[1..], keyId, status);
      UpdateKeyStatusConcat(head, Persisted(pool[1..]), keyId, status);
      assert uhead == UpdateKeyStatus(head, keyId, status);
    }
  }

  /** The same for a whole series of writes. */
  lemma {:induction false} PersistedAfterWrites(pool: seq<ApiKey>, writes: seq<StatusWrite>)
    ensures Persisted(ApplyWrites(pool, writes)) == ApplyWrites(Persisted(pool), writes)
    decreases |writes|
  {
    if writes != [] {
      var w := writes[|writes| - 1];
      PersistedAfterWrites(pool, writes[..|writes| - 1]);
      PersistedAfterUpdate(ApplyWrites(pool, writes[..|writes| - 1]), w.keyId, w.status);
    }
  }

  // ---------------------------------------------------------------------
  // Reading storage back (getStoredApiKeys, MainApp.tsx:599-627)
  // ---------------------------------------------------------------------

  /** One element of a stored or imported JSON array of keys; a field that
      is missing (or not a string) is `None`. */
  datatype StoredKey = StoredKey(id: Option<string>, value: Option<string>, masked: Option<string>, status: Option<ApiKeyStatus>)

  /** What `JSON.parse` makes of a text holding keys: a parse error, a value
      that is not an array, or an array whose elements may be `null`. */
  datatype KeyJson = Unparsable | NotArray | KeyArray(entries: seq<Option<StoredKey>>)

  /** The keys read back and whether storage is cleared. */
  datatype Loaded = Loaded(keys: seq<ApiKey>, clearStorage: bool)

  /** The JSON form `JSON.stringify` gives a key. */
  function StoredForm(k: ApiKey): StoredKey {
    StoredKey(Some(k.id), Some(k.value), Some(k.masked), Some(k.status))
  }

  function Serialize(keys: seq<ApiKey>): seq<Option<StoredKey>> {
    Map(keys, (k: ApiKey) => Some(StoredForm(k)))
  }

  predicate HasNull(entries: seq<Option<StoredKey>>) {
    exists k :: 0 <= k < |entries| && entries[k].None?
  }

  /** `key_loaded_${Date.now()}_${index}`. */
  function LoadedId(now: nat, index: nat): string {
    "key_loaded_" + NatToString(now) + "_" + NatToString(index)
  }

  /** The mask shown for a key read back without one. */
  function MaskOrEmpty(value: string): string {
    if value != "" then Mask(value) else ""
  }

  /** One stored element made into a key (MainApp.tsx:614-620). */
  function LoadedEntry(e: StoredKey, fallbackId: string): ApiKey {
    var value := Or(e.value, "");
    ApiKey(Or(e.id, fallbackId), value, Or(e.masked, MaskOrEmpty(value)), e.status.GetOr(Unvalidated), false)
  }

  /** `getStoredApiKeys()`. `stored` is `None` when nothing (or the empty
      string) is stored. A parse error, a non-array and an array holding
      `null` (whose `.id` throws) all give no keys and clear the storage;
      otherwise every element becomes a user key and the ones without a
      value are dropped. */
  function GetStoredApiKeys(stored: Option<KeyJson>, now: nat): (r: Loaded)
    ensures stored.None? ==> r == Loaded([], false)
    ensures r.clearStorage <==> stored.Some? && (stored.value.KeyArray? ==> HasNull(stored.value.entries))
    ensures r.clearStorage ==> r.keys == []
    ensures forall k :: 0 <= k < |r.keys| ==> !r.keys[k].isSystem && r.keys[k].value != ""
    ensures stored.Some? && stored.value.KeyArray? ==> |r.keys| <= |stored.value.entries|
  {
    match stored
    case None => Loaded([], false)
    case Some(json) =>
      match json
      case KeyArray(es) =>
        if HasNull(es) then Loaded([], true)
        else
          var all := seq(|es|, i requires 0 <= i < |es| => LoadedEntry(es[i].value, LoadedId(now, i)));
          Loaded(Filter(all, (k: ApiKey) => k.value != ""), false)
      case _ => Loaded([], true)
  }

  /** A key with an id, a value and a mask: one `storeApiKeys` writes and
      `getStoredApiKeys` reads back field by field. */
  predicate WellFormedKey(k: ApiKey) {
    k.id != "" && k.value != "" && k.masked != ""
  }

  /** Reading back what `storeApiKeys` wrote gives exactly the persisted
      user keys, statuses included, and clears nothing. */
  lemma StoreThenLoad(pool: seq<ApiKey>, now: nat)
    requires forall k :: 0 <= k < |pool| ==> WellFormedKey(pool[k])
    ensures GetStoredApiKeys(Some(KeyArray(Serialize(Persisted(pool)))), now) == Loaded(Persisted(pool), false)
  {
    var u := Persisted(pool);
    var es := Serialize(u);
    assert !HasNull(es);
    var all := seq(|es|, i requires 0 <= i < |es| => LoadedEntry(es[i].value, LoadedId(now, i)));
    assert all == u by {
      forall i | 0 <= i < |u| ensures all[i] == u[i] {
        assert u[i] in pool;
      }
    }
    FilterKeepsAll(all, (k: ApiKey) => k.value != "");
  }

  // ---------------------------------------------------------------------
  // Boot-time assembly (MainApp.tsx:882-904, and 815-835 on session load)
  // ---------------------------------------------------------------------

  const SystemKeyId: string := "system_key"

  function SystemKeyLabel(owner: Option<string>): string {
    if Truthy(owner) then "Kunci Sistem (" + owner.value + ")" else "Kunci Sistem (Prioritas Utama)"
  }

  /** The key built from the `API_KEY` environment variable, when it is set. */
  function SystemKeys(env: Option<string>, owner: Option<string>): seq<ApiKey> {
    if Truthy(env) then [ApiKey(SystemKeyId, env.value, SystemKeyLabel(owner), Unvalidated, true)] else []
  }

  /** The pool and the pinned primary key id (`null` is `None`). */
  datatype Pool = Pool(keys: seq<ApiKey>, primary: Option<string>)

  /** The state the bootstrap effect sets when no Drive file is open: the
      system key first, then the stored user keys; the stored primary id
      when it is non-empty. */
  function BootPool(env: Option<string>, owner: Option<string>, stored: Option<KeyJson>, storedPrimary: Option<string>, now: nat): Pool {
    Pool(SystemKeys(env, owner) + GetStoredApiKeys(stored, now).keys, if Truthy(storedPrimary) then storedPrimary else None)
  }

  /** A list of system keys followed by user keys persists as exactly the
      user keys. */
  lemma PersistedSystemFirst(system: seq<ApiKey>, user: seq<ApiKey>)
    requires forall k :: 0 <= k < |system| ==> system[k].isSystem
    requires forall k :: 0 <= k < |user| ==> !user[k].isSystem
    ensures Persisted(system + user) == user
  {
    FilterConcat(system, user, IsUserKey);
    FilterKeepsNone(system, IsUserKey);
    FilterKeepsAll(user, IsUserKey);
  }

  /** The booted pool holds the system key (at most one) in front and only
      user keys behind it; storing it writes back exactly the keys read. */
  lemma BootPoolShape(env: Option<string>, owner: Option<string>, stored: Option<KeyJson>, storedPrimary: Option<string>, now: nat)
    ensures var p := BootPool(env, owner, stored, storedPrimary, now);
            var n := if Truthy(env) then 1 else 0;
            n <= |p.keys| &&
            (forall k :: 0 <= k < |p.keys| ==> (p.keys[k].isSystem <==> k < n)) &&
            Persisted(p.keys) == GetStoredApiKeys(stored, now).keys &&
            (p.primary.Some? ==> p.primary.value != "")
  {
    PersistedSystemFirst(SystemKeys(env, owner), GetStoredApiKeys(stored, now).keys);
  }

  /** Storing a pool and booting again restores the system key and the
      pool's user keys, in order and with their statuses. */
  lemma StoreThenBoot(pool: seq<ApiKey>, env: Option<string>, owner: Option<string>, storedPrimary: Option<string>, now: nat)
    requires forall k :: 0 <= k < |pool| ==> WellFormedKey(pool[k])
    ensures BootPool(env, owner, Some(KeyArray(Serialize(Persisted(pool)))), storedPrimary, now).keys
            == SystemKeys(env, owner) + Persisted(pool)
  {
    StoreThenLoad(pool, now);
  }

  // ---------------------------------------------------------------------
  // Adding typed keys (handleSaveApiKeys, MainApp.tsx:1651-1664)
  // ---------------------------------------------------------------------

  /** `input.split('\n').map(k => k.trim()).filter(Boolean)`. */
  function TypedKeys(input: string): seq<string> {
    Filter(Map(Split(input, '\n'), Trim), (s: string) => s != "")
  }

  /** Every typed key is non-empty, trimmed and on one line. */
  lemma TypedKeysClean(input: string)
    ensures forall k :: 0 <= k < |TypedKeys(input)| ==>
              TypedKeys(input)[k] != "" && Trim(TypedKeys(input)[k]) == TypedKeys(input)[k] && '\n' !in TypedKeys(input)[k]
  {
    var parts := Split(input, '\n');
    var trimmed := Map(parts, Trim);
    var r := TypedKeys(input);
    forall k | 0 <= k < |r|
      ensures r[k] != "" && Trim(r[k]) == r[k] && '\n' !in r[k]
    {
      var j :| 0 <= j < |trimmed| && trimmed[j] == r[k];
      TrimIdempotent(parts[j]);
      TrimKeepsAbsent(parts[j], '\n');
    }
  }

  /** Some key of the pool has this value (`existingValues.has(v)` for
      `existingValues = new Set(apiKeys.map(k => k.value))`). */
  predicate HasValue(pool: seq<ApiKey>, v: string) {
    exists k :: 0 <= k < |pool| && pool[k].value == v
  }

  /** The values not yet in the pool, in input order
      (`newKeys.filter(k => !existingValues.has(k))`). */
  function NewValues(pool: seq<ApiKey>, values: seq<string>): seq<string> {
    Filter(values, (v: string) => !HasValue(pool, v))
  }

  /** The values not yet in the pool, appended as unvalidated user keys
      with their masks; `newId(i)` is the id of the `i`-th of them. The pool
      is kept in front, exactly one key follows per new value, in input
      order, and every value ends up in the pool. */
  function AppendNew(pool: seq<ApiKey>, values: seq<string>, newId: nat -> string): (r: seq<ApiKey>)
    ensures |pool| <= |r| && r[..|pool|] == pool
    ensures |r| == |pool| + |NewValues(pool, values)|
    ensures forall i :: 0 <= i < |NewValues(pool, values)| ==>
              r[|pool| + i] == ApiKey(newId(i), NewValues(pool, values)[i], Mask(NewValues(pool, values)[i]), Unvalidated, false)
    ensures forall k :: |pool| <= k < |r| ==>
              r[k].status == Unvalidated && !r[k].isSystem && r[k].masked == Mask(r[k].value) &&
              r[k].value in values && !HasValue(pool, r[k].value)
    ensures forall k :: 0 <= k < |values| ==> HasValue(r, values[k])
  {
    var unseen := NewValues(pool, values);
    var added := NewKeys(unseen, newId);
    var r := pool + added;
    assert forall k :: |pool| <= k < |r| ==> r[k] == added[k - |pool|];
    NewValuesCovered(pool, values, added);
    r
  }

  /** One unvalidated user key per value, `newId(i)` for the `i`-th. */
  function NewKeys(unseen: seq<string>, newId: nat -> string): (added: seq<ApiKey>)
    ensures |added| == |unseen|
  {
    seq(|unseen|, i requires 0 <= i < |unseen| => ApiKey(newId(i), unseen[i], Mask(unseen[i]), Unvalidated, false))
  }

  /** Each value is in the pool or among the keys made for the new values. */
  lemma NewValuesCovered(pool: seq<ApiKey>, values: seq<string>, added: seq<ApiKey>)
    requires |added| == |NewValues(pool, values)|
    requires forall i :: 0 <= i < |added| ==> added[i].value == NewValues(pool, values)[i]
    ensures forall k :: 0 <= k < |values| ==> HasValue(pool + added, values[k])
  {
    var unseen := NewValues(pool, values);
    var r := pool + added;
    forall k | 0 <= k < |values| ensures HasValue(r, values[k]) {
      if HasValue(pool, values[k]) {
        var j :| 0 <= j < |pool| && pool[j].value == values[k];
        assert r[j] == pool[j];
      } else {
        var i :| 0 <= i < |unseen| && unseen[i] == values[k];
        assert r[|pool| + i] == added[i];
      }
    }
  }

  /** `handleSaveApiKeys`. `newId(i)` stands for the id
      `key_${Date.now()}_${Math.random()}` of the `i`-th new key. When no key
      was typed the pool stays as it is; otherwise the pool is kept in front
      and each typed value not yet in the pool follows, one key per value in
      the order typed, as an unvalidated user key with its mask. Every typed
      value ends up in the pool. */
  function SaveTypedKeys(pool: seq<ApiKey>, input: string, newId: nat -> string): (r: seq<ApiKey>)
    ensures TypedKeys(input) == [] ==> r == pool
    ensures |pool| <= |r| && r[..|pool|] == pool
    ensures |r| == |pool| + |NewValues(pool, TypedKeys(input))|
    ensures forall i :: 0 <= i < |NewValues(pool, TypedKeys(input))| ==>
              var v := NewValues(pool, TypedKeys(input))[i];
              r[|pool| + i] == ApiKey(newId(i), v, Mask(v), Unvalidated, false)
    ensures forall k :: |pool| <= k < |r| ==>
              r[k].status == Unvalidated && !r[k].isSystem && r[k].masked == Mask(r[k].value) &&
              r[k].value in TypedKeys(input) && !HasValue(pool, r[k].value)
    ensures forall k :: 0 <= k < |TypedKeys(input)| ==> HasValue(r, TypedKeys(input)[k])
  {
    var typed := TypedKeys(input);
    if typed == [] then pool else AppendNew(pool, typed, newId)
  }

  // ---------------------------------------------------------------------
  // Import and export (MainApp.tsx:1692-1734)
  // ---------------------------------------------------------------------

  /** `imported_${Date.now()}_${i}`. */
  function ImportedId(now: nat, i: nat): string {
    "imported_" + NatToString(now) + "_" + NatToString(i)
  }

  /** `k && typeof k.value === 'string' && !existingKeyValues.has(k.value)`. */
  predicate Importable(e: Option<StoredKey>, pool: seq<ApiKey>) {
    e.Some? && e.value.value.Some? && !HasValue(pool, e.value.value.value)
  }

  function ImportedKey(e: StoredKey, i: nat, now: nat): ApiKey
    requires e.value.Some?
  {
    ApiKey(Or(e.id, ImportedId(now, i)), e.value.value, Or(e.masked, Mask(e.value.value)), Unvalidated, false)
  }

  /** The elements that pass the import filter, in file order. */
  function ImportableEntries(pool: seq<ApiKey>, es: seq<Option<StoredKey>>): seq<Option<StoredKey>> {
    Filter(es, (e: Option<StoredKey>) => Importable(e, pool))
  }

  /** The keys an import appends: one per importable entry, in file order,
      numbered after the filter, with the entry's value, its id and mask or
      the fallbacks, and the status reset to unvalidated. */
  function ImportedKeys(pool: seq<ApiKey>, es: seq<Option<StoredKey>>, now: nat): (r: seq<ApiKey>)
    ensures |r| == |ImportableEntries(pool, es)|
    ensures forall i :: 0 <= i < |r| ==>
              var e := ImportableEntries(pool, es)[i];
              e.Some? && e.value.value.Some? &&
              r[i] == ApiKey(Or(e.value.id, ImportedId(now, i)), e.value.value.value,
                             Or(e.value.masked, Mask(e.value.value.value)), Unvalidated, false)
    ensures forall k :: 0 <= k < |r| ==> r[k].status == Unvalidated && !r[k].isSystem && !HasValue(pool, r[k].value)
  {
    var unseen := ImportableEntries(pool, es);
    seq(|unseen|, i requires 0 <= i < |unseen| => ImportedKey(unseen[i].value, i, now))
  }

  /** Every importable entry's value ends up among the imported keys. */
  lemma ImportedKeysCover(pool: seq<ApiKey>, es: seq<Option<StoredKey>>, now: nat)
    ensures forall k :: 0 <= k < |es| && Importable(es[k], pool) ==> HasValue(ImportedKeys(pool, es, now), es[k].value.value.value)
  {
    var unseen := ImportableEntries(pool, es);
    var added := ImportedKeys(pool, es, now);
    forall k | 0 <= k < |es| && Importable(es[k], pool) ensures HasValue(added, es[k].value.value.value) {
      var i :| 0 <= i < |unseen| && unseen[i] == es[k];
      assert added[i].value == es[k].value.value.value;
    }
  }

  /** A value among the keys appended to a pool is in the longer pool. */
  lemma HasValueAppend(pool: seq<ApiKey>, added: seq<ApiKey>, v: string)
    requires HasValue(added, v)
    ensures HasValue(pool + added, v)
  {
    var i :| 0 <= i < |added| && added[i].value == v;
    assert (pool + added)[|pool| + i] == added[i];
  }

  /** The reading of an imported file. A file that does not parse as an
      array is refused (`None`) and the pool stays; otherwise every element
      with a string value not yet in the pool is appended, one key per such
      element in file order, as an unvalidated user key (ids fall back to
      `imported_<now>_<i>`, numbered after the filter), the pool kept in
      front. */
  function ImportKeys(pool: seq<ApiKey>, file: KeyJson, now: nat): (r: Option<seq<ApiKey>>)
    ensures r.None? <==> !file.KeyArray?
    ensures r.Some? ==> |pool| <= |r.value| && r.value[..|pool|] == pool
    ensures r.Some? ==> r.value[|pool|..] == ImportedKeys(pool, file.entries, now)
    ensures r.Some? ==> forall k :: |pool| <= k < |r.value| ==>
              r.value[k].status == Unvalidated && !r.value[k].isSystem && !HasValue(pool, r.value[k].value)
    ensures r.Some? ==> forall k :: 0 <= k < |file.entries| && Importable(file.entries[k], pool) ==>
              HasValue(r.value, file.entries[k].value.value.value)
  {
    match file
    case KeyArray(es) =>
      var added := ImportedKeys(pool, es, now);
      var r := pool + added;
      assert forall k :: |pool| <= k < |r| ==> r[k] == added[k - |pool|];
      ImportedKeysCover(pool, es, now);
      assert forall k :: 0 <= k < |es| && Importable(es[k], pool) ==> HasValue(r, es[k].value.value.value) by {
        forall k | 0 <= k < |es| && Importable(es[k], pool) ensures HasValue(r, es[k].value.value.value) {
          HasValueAppend(pool, added, es[k].value.value.value);
        }
      }
      Some(r)
    case _ => None
  }

  /** `handleExportApiKeys` writes the user keys only. */
  function ExportKeys(pool: seq<ApiKey>): seq<ApiKey> {
    Persisted(pool)
  }

  /** Exporting the keys of one pool and importing the file into a pool that
      holds none of their values appends them all, in order, with their ids,
      values and masks, and with their status reset to unvalidated. */
  lemma ExportThenImport(source: seq<ApiKey>, pool: seq<ApiKey>, now: nat)
    requires forall k :: 0 <= k < |source| ==> WellFormedKey(source[k]) && !HasValue(pool, source[k].value)
    ensures ImportKeys(pool, KeyArray(Serialize(ExportKeys(source))), now)
            == Some(pool + Map(ExportKeys(source), (k: ApiKey) => k.(status := Unvalidated)))
  {
    var u := ExportKeys(source);
    var es := Serialize(u);
    forall k | 0 <= k < |es| ensures Importable(es[k], pool) {
      assert u[k] in source;
    }
    FilterKeepsAll(es, (e: Option<StoredKey>) => Importable(e, pool));
    var added := seq(|es|, i requires 0 <= i < |es| => ImportedKey(es[i].value, i, now));
    assert added == Map(u, (k: ApiKey) => k.(status := Unvalidated)) by {
      forall i | 0 <= i < |u| ensures added[i] == u[i].(status := Unvalidated) {
        assert u[i] in source;
      }
    }
  }

  // ---------------------------------------------------------------------
  // Remove and clear (MainApp.tsx:1676-1690)
  // ---------------------------------------------------------------------

  /** `handleRemoveApiKey(id)`: the keys without that id, in order, and the
      primary cleared when it was the removed id. */
  function RemoveKey(p: Pool, id: string): (r: Pool)
    ensures forall k :: 0 <= k < |r.keys| ==> r.keys[k].id != id && r.keys[k] in p.keys
    ensures forall k :: 0 <= k < |p.keys| && p.keys[k].id != id ==> p.keys[k] in r.keys
    ensures r.primary.Some? ==> r.primary.value != id && r.primary == p.primary
    ensures p.primary.Some? && p.primary.value != id ==> r.primary == p.primary
    ensures forall i :: 0 <= i < |p.keys| && p.keys[i].id == id && (forall k :: 0 <= k < |p.keys| && k != i ==> p.keys[k].id != id) ==>
              r.keys == p.keys[..i] + p.keys[i + 1..]
  {
    var keep := (k: ApiKey) => k.id != id;
    DropsOnlyAt(p.keys, keep);
    Pool(Filter(p.keys, keep), if p.primary == Some(id) then None else p.primary)
  }

  /** Removing an id no key has leaves the keys as they are. */
  lemma RemoveAbsentKey(p: Pool, id: string)
    requires forall k :: 0 <= k < |p.keys| ==> p.keys[k].id != id
    ensures RemoveKey(p, id).keys == p.keys
  {
    FilterKeepsAll(p.keys, (k: ApiKey) => k.id != id);
  }

  /** `handleClearApiKeys`: only the system keys stay, no primary, and
      nothing is left to persist. */
  function ClearKeys(p: Pool): (r: Pool)
    ensures r.primary.None?
    ensures forall k :: 0 <= k < |r.keys| ==> r.keys[k].isSystem && r.keys[k] in p.keys
    ensures forall k :: 0 <= k < |p.keys| && p.keys[k].isSystem ==> p.keys[k] in r.keys
    ensures Persisted(r.keys) == []
    ensures forall j :: 0 <= j <= |p.keys| && (forall k :: 0 <= k < j ==> p.keys[k].isSystem) && (forall k :: j <= k < |p.keys| ==> !p.keys[k].isSystem) ==>
              r.keys == p.keys[..j]
  {
    FrontBlock(p.keys, IsSystemKey);
    var keys := Filter(p.keys, IsSystemKey);
    FilterKeepsNone(keys, IsUserKey);
    Pool(keys, None)
  }

  // ---------------------------------------------------------------------
  // The start gate (hasApiKeyIssue, MainApp.tsx:1007-1014)
  // ---------------------------------------------------------------------

  /** A key rotation never picks: invalid or exhausted. */
  predicate Dead(k: ApiKey) {
    k.status == Invalid || k.status == Exhausted
  }

  /** `hasApiKeyIssue`: no keys; or a pinned primary that is missing, invalid
      or exhausted; or, without one, no key left alive. */
  predicate HasApiKeyIssue(p: Pool) {
    if p.keys == [] then true
    else if Truthy(p.primary) then
      match FindById(p.keys, p.primary.value)
      case None => true
      case Some(k) => Dead(k)
    else forall k :: 0 <= k < |p.keys| ==> Dead(p.keys[k])
  }

  /** Without a pinned primary the gate is closed exactly when rotation has
      no candidate. */
  lemma IssueIffNoCandidate(p: Pool)
    requires !Truthy(p.primary)
    ensures HasApiKeyIssue(p) <==> Candidates(p.keys) == []
  {
    var c := Candidates(p.keys);
    if c != [] {
      assert c[0] in p.keys && !Dead(c[0]);
    }
  }
}

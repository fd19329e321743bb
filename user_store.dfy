/**
 * The local profile store (`UserStore` in services/user_store.py): a
 * last-write-wins cache from user id to profile, saved as a JSON object whose
 * keys are the decimal user ids and loaded back with `int(k)`.
 */
module Users {
  import opened Wrappers
  import opened Text

  datatype UserProfile = UserProfile(userId: int, username: Option<string>, firstName: Option<string>)

  /**
   * The profile file as `_load` finds it: absent, not a readable JSON object,
   * or the items of the JSON object in file order. An item's value is None
   * when `UserProfile(**v)` rejects it (missing or unexpected fields).
   */
  datatype ProfileFile =
    | Missing
    | Unreadable
    | Object(items: seq<(string, Option<UserProfile>)>)

  /** `str(i)` never maps two ids to the same key. */
  lemma IdKeysInjective()
    ensures forall a: int, b: int :: IntToString(a) == IntToString(b) ==> a == b
  {
    forall a: int, b: int | IntToString(a) == IntToString(b) ensures a == b {
      IntToStringInjective(a, b);
    }
  }

  /** The JSON object `_save` writes: each id `k` under the key `str(k)`. */
  function Encode(cache: map<int, UserProfile>): (r: map<string, UserProfile>)
    ensures r.Keys == set k | k in cache :: IntToString(k)
    ensures forall k :: k in cache ==> r[IntToString(k)] == cache[k]
  {
    IdKeysInjective();
    map k | k in cache :: IntToString(k) := cache[k]
  }

  /**
   * One iteration of the `_load` loop: the item adds `int(k) -> UserProfile(**v)`,
   * overriding an earlier entry for the same id; None when it raises (a key
   * `int` rejects or a value that is not a profile) or an earlier item raised.
   */
  function DecodeOne(acc: Option<map<int, UserProfile>>, item: (string, Option<UserProfile>))
    : (r: Option<map<int, UserProfile>>)
    ensures r.Some? <==> acc.Some? && ParseInt(item.0).Some? && item.1.Some?
    ensures r.Some? ==> r.value == acc.value[ParseInt(item.0).value := item.1.value]
  {
    if acc.None? then None
    else
      match ParseInt(item.0)
      case None => None
      case Some(id) => if item.1.None? then None else Some(acc.value[id := item.1.value])
  }

  /** The `_load` loop over all the items, None when some item raises. */
  function DecodeItems(items: seq<(string, Option<UserProfile>)>): Option<map<int, UserProfile>>
    decreases |items|
  {
    if items == [] then Some(map[])
    else DecodeOne(DecodeItems(items[..|items| - 1]), items[|items| - 1])
  }

  /** The cache `_load` leaves behind: empty when the file is missing or anything in it fails. */
  function Loaded(file: ProfileFile): map<int, UserProfile> {
    match file
    case Missing => map[]
    case Unreadable => map[]
    case Object(items) =>
      match DecodeItems(items)
      case None => map[]
      case Some(m) => m
  }

  /** Once an item fails, the whole load fails. */
  lemma {:induction false} DecodeFailurePersists(items: seq<(string, Option<UserProfile>)>, i: nat)
    requires i <= |items| && DecodeItems(items[..i]) == None
    ensures DecodeItems(items) == None
    decreases |items| - i
  {
    if i < |items| {
      assert items[..i + 1][..i] == items[..i];
      assert DecodeItems(items[..i + 1]) == DecodeOne(DecodeItems(items[..i]), items[i]);
      DecodeFailurePersists(items, i + 1);
    } else {
      assert items[..i] == items;
    }
  }

  /** `items` lists every key/value pair of the JSON object `obj` once, in some order. */
  ghost predicate Lists(items: seq<(string, Option<UserProfile>)>, obj: map<string, UserProfile>) {
    && (forall i, j :: 0 <= i < j < |items| ==> items[i].0 != items[j].0)
    && (forall i :: 0 <= i < |items| ==> items[i].0 in obj && items[i].1 == Some(obj[items[i].0]))
    && (forall k :: k in obj ==> exists i :: 0 <= i < |items| && items[i].0 == k)
  }

  /** The keys the items carry. */
  ghost function KeysOf(items: seq<(string, Option<UserProfile>)>): set<string> {
    set i | 0 <= i < |items| :: items[i].0
  }

  lemma KeysOfSnoc(q: seq<(string, Option<UserProfile>)>, x: (string, Option<UserProfile>))
    ensures KeysOf(q + [x]) == KeysOf(q) + {x.0}
  {
    var p := q + [x];
    forall y | y in KeysOf(p) ensures y in KeysOf(q) + {x.0} {
      var i :| 0 <= i < |p| && p[i].0 == y;
      if i < |q| { assert q[i] == p[i]; }
    }
    forall y | y in KeysOf(q) ensures y in KeysOf(p) {
      var i :| 0 <= i < |q| && q[i].0 == y;
      assert p[i] == q[i];
    }
    assert p[|q|] == x;
  }

  /** The item is some cached profile under its id's key. */
  ghost predicate Listed(item: (string, Option<UserProfile>), cache: map<int, UserProfile>) {
    exists id :: id in cache && item == (IntToString(id), Some(cache[id]))
  }

  lemma ListedItem(item: (string, Option<UserProfile>), cache: map<int, UserProfile>) returns (id: int)
    requires Listed(item, cache)
    ensures id in cache && item == (IntToString(id), Some(cache[id]))
  {
    id :| id in cache && item == (IntToString(id), Some(cache[id]));
  }

  /** The part of `cache` whose keys, as written by `_save`, are among `keys`. */
  ghost function Restrict(cache: map<int, UserProfile>, keys: set<string>): map<int, UserProfile> {
    map id | id in cache && IntToString(id) in keys :: cache[id]
  }

  lemma RestrictAdd(cache: map<int, UserProfile>, keys: set<string>, id: int)
    requires id in cache
    ensures Restrict(cache, keys)[id := cache[id]] == Restrict(cache, keys + {IntToString(id)})
  {
    IdKeysInjective();
  }

  /** One more well-formed item extends a successful load by one entry. */
  lemma DecodeSnoc(q: seq<(string, Option<UserProfile>)>, m: map<int, UserProfile>, k: string, id: int, prof: UserProfile)
    requires DecodeItems(q) == Some(m) && ParseInt(k) == Some(id)
    ensures DecodeItems(q + [(k, Some(prof))]) == Some(m[id := prof])
  {
    var p := q + [(k, Some(prof))];
    assert p[..|p| - 1] == q;
    assert DecodeItems(p) == DecodeOne(Some(m), (k, Some(prof)));
  }

  lemma {:induction false} DecodeListing(items: seq<(string, Option<UserProfile>)>, cache: map<int, UserProfile>, n: nat)
    requires n <= |items| && forall i :: 0 <= i < |items| ==> Listed(items[i], cache)
    ensures DecodeItems(items[..n]) == Some(Restrict(cache, KeysOf(items[..n])))
    decreases n
  {
    if n == 0 {
      assert KeysOf(items[..0]) == {};
    } else {
      var p, q := items[..n], items[..n - 1];
      assert p == q + [items[n - 1]];
      DecodeListing(items, cache, n - 1);
      var id := ListedItem(items[n - 1], cache);
      var m := Restrict(cache, KeysOf(q));
      ParseIntToString(id);
      DecodeSnoc(q, m, IntToString(id), id, cache[id]);
      assert DecodeItems(p) == Some(m[id := cache[id]]);
      KeysOfSnoc(q, items[n - 1]);
      RestrictAdd(cache, KeysOf(q), id);
      assert KeysOf(p) == KeysOf(q) + {IntToString(id)};
    }
  }

  /** Every item of the object `_save` wrote is a cached profile under its id's key. */
  lemma ItemsListed(cache: map<int, UserProfile>, items: seq<(string, Option<UserProfile>)>)
    requires Lists(items, Encode(cache))
    ensures forall i :: 0 <= i < |items| ==> Listed(items[i], cache)
  {
    forall i | 0 <= i < |items| ensures Listed(items[i], cache) {
      var k := items[i].0;
      assert k in Encode(cache);
      var id :| id in cache && IntToString(id) == k;
    }
  }

  /** Every cached id's key is among the items of the object `_save` wrote. */
  lemma ItemsCover(cache: map<int, UserProfile>, items: seq<(string, Option<UserProfile>)>)
    requires Lists(items, Encode(cache))
    ensures forall id :: id in cache ==> IntToString(id) in KeysOf(items)
  {
    forall id | id in cache ensures IntToString(id) in KeysOf(items) {
      assert IntToString(id) in Encode(cache);
      var i :| 0 <= i < |items| && items[i].0 == IntToString(id);
    }
  }

  lemma RestrictAll(cache: map<int, UserProfile>, keys: set<string>)
    requires forall id :: id in cache ==> IntToString(id) in keys
    ensures Restrict(cache, keys) == cache
  {
  }

  /**
   * Save/load round trip: whatever order `json.dumps` writes the items in,
   * loading the object `_save` wrote gives back the same cache, so every id
   * survives the `str(k)` / `int(k)` encoding.
   */
  lemma SaveLoadRoundTrip(cache: map<int, UserProfile>, items: seq<(string, Option<UserProfile>)>)
    requires Lists(items, Encode(cache))
    ensures Loaded(Object(items)) == cache
  {
    ItemsListed(cache, items);
    ItemsCover(cache, items);
    DecodeListing(items, cache, |items|);
    assert items[..|items|] == items;
    RestrictAll(cache, KeysOf(items));
    assert DecodeItems(items) == Some(cache);
  }

  /** Every cached profile is filed under its own `user_id`; `upsert` keeps this, a hand-edited file may not. */
  ghost predicate FiledById(cache: map<int, UserProfile>) {
    forall id :: id in cache ==> cache[id].userId == id
  }

  class UserStore {
    /** The `_cache` dict. */
    var cache: map<int, UserProfile>
    /** The JSON object the last `_save` wrote, None before the first one. */
    var saved: Option<map<string, UserProfile>>

    /** `UserStore(path)`: starts empty and loads whatever `file` holds. */
    constructor (file: ProfileFile)
      ensures cache == Loaded(file) && saved == None
    {
      cache := map[];
      saved := None;
      new;
      Load(file);
    }

    /**
     * `_load`: fills the empty cache item by item; if anything fails, the
     * cache is reset to empty.
     */
    method Load(file: ProfileFile)
      requires cache == map[]
      modifies this
      ensures cache == Loaded(file) && saved == old(saved)
    {
      if file.Object? {
        LoadItems(file.items);
      }
    }

    /** The loop of `_load` over the items of the JSON object. */
    method LoadItems(items: seq<(string, Option<UserProfile>)>)
      requires cache == map[]
      modifies this
      ensures cache == Loaded(Object(items)) && saved == old(saved)
    {
      var i := 0;
      while i < |items|
        invariant 0 <= i <= |items| && saved == old(saved)
        invariant DecodeItems(items[..i]) == Some(cache)
      {
        assert items[..i + 1][..i] == items[..i];
        assert DecodeItems(items[..i + 1]) == DecodeOne(Some(cache), items[i]);
        var next := DecodeOne(Some(cache), items[i]);
        if next.None? {
          DecodeFailurePersists(items, i + 1);
          cache := map[];
          return;
        }
        cache := next.value;
        i := i + 1;
      }
      assert items[..i] == items;
    }

    /** `upsert(profile)`: last write wins for `profile.user_id`, then the whole cache is saved. */
    method Upsert(profile: UserProfile)
      modifies this
      ensures cache == old(cache)[profile.userId := profile]
      ensures forall id :: id != profile.userId ==> (id in cache <==> id in old(cache))
      ensures forall id :: id != profile.userId && id in cache ==> cache[id] == old(cache)[id]
      ensures saved == Some(Encode(cache))
      ensures FiledById(old(cache)) ==> FiledById(cache)
    {
      cache := cache[profile.userId := profile];
      saved := Some(Encode(cache));
    }

    /** `get(user_id)`: the cached profile or None; changes nothing. */
    method Get(userId: int) returns (r: Option<UserProfile>)
      ensures r.Some? <==> userId in cache
      ensures r.Some? ==> r.value == cache[userId]
    {
      r := if userId in cache then Some(cache[userId]) else None;
    }
  }
}

/** The image preparation cache: derivatives keyed by source content, bounded in bytes and
    entries by least-recently-used eviction, with a timer per entry. */
module ImageCache {

  import opened Wrappers

  datatype Part = Part(data: string, mimeType: string, note: string)

  datatype Image = Image(parts: seq<Part>, note: string)

  /** A source's content hash. */
  type Key = string

  /** A list element; `id` is its identity as an object. */
  datatype Element = Element(id: nat, key: Key, image: Image, bytes: nat, expires: int)

  // ----- sizes

  function PartsSize(parts: seq<Part>): nat {
    if parts == [] then 0
    else
      var last := parts[|parts| - 1];
      PartsSize(parts[..|parts| - 1]) + 64 + |last.data| + |last.mimeType| + |last.note|
  }

  function Size(image: Image): nat {
    256 + |image.note| + PartsSize(image.parts)
  }

  /** Every part adds its data, type and note and 64 bytes; an image without parts is its note and
      256 bytes. */
  lemma SizeAdds(parts: seq<Part>, part: Part, note: string)
    ensures Size(Image([], note)) == 256 + |note|
    ensures Size(Image(parts + [part], note)) == Size(Image(parts, note)) + 64 + |part.data| + |part.mimeType| + |part.note|
  {
    assert (parts + [part])[..|parts|] == parts;
  }

  method SizeOf(image: Image) returns (size: nat)
    ensures size == Size(image)
  {
    size := 256 + |image.note|;
    for i := 0 to |image.parts|
      invariant size == 256 + |image.note| + PartsSize(image.parts[..i])
    {
      assert image.parts[..i + 1][..i] == image.parts[..i];
      var part := image.parts[i];
      size := size + 64 + |part.data| + |part.mimeType| + |part.note|;
    }
    assert image.parts[..|image.parts|] == image.parts;
  }

  // ----- the list

  function Total(lru: seq<Element>): nat {
    if lru == [] then 0 else Total(lru[..|lru| - 1]) + lru[|lru| - 1].bytes
  }

  ghost predicate Distinct(lru: seq<Element>) {
    forall i, j :: 0 <= i < j < |lru| ==> lru[i].id != lru[j].id && lru[i].key != lru[j].key
  }

  /** The map holds exactly the list's elements. */
  ghost predicate Agrees(entries: map<Key, nat>, lru: seq<Element>) {
    && (forall e :: e in lru ==> e.key in entries && entries[e.key] == e.id)
    && (forall k :: k in entries ==> exists e :: e in lru && e.key == k)
  }

  function IndexOf(lru: seq<Element>, id: nat): (i: nat)
    requires exists e :: e in lru && e.id == id
    ensures i < |lru| && lru[i].id == id
  {
    if lru[0].id == id then 0 else 1 + IndexOf(lru[1..], id)
  }

  function Without(lru: seq<Element>, i: nat): seq<Element>
    requires i < |lru|
  {
    lru[..i] + lru[i + 1..]
  }

  lemma {:induction false} TotalConcat(a: seq<Element>, b: seq<Element>)
    ensures Total(a + b) == Total(a) + Total(b)
  {
    if b == [] {
      assert a + b == a;
    } else {
      TotalConcat(a, b[..|b| - 1]);
      assert (a + b)[..|a + b| - 1] == a + b[..|b| - 1];
    }
  }

  lemma TotalOne(e: Element)
    ensures Total([e]) == e.bytes
  {
  }

  lemma TotalMiddle(a: seq<Element>, e: Element, b: seq<Element>)
    ensures Total(a + [e] + b) == Total(a + b) + e.bytes
  {
    TotalConcat(a, b);
    TotalConcat(a, [e]);
    TotalConcat(a + [e], b);
    TotalOne(e);
    hide Total;
  }

  lemma TotalWithout(lru: seq<Element>, i: nat)
    requires i < |lru|
    ensures Total(lru) == Total(Without(lru, i)) + lru[i].bytes
  {
    hide Total;
    TotalMiddle(lru[..i], lru[i], lru[i + 1..]);
    assert lru == lru[..i] + [lru[i]] + lru[i + 1..];
  }

  lemma DistinctWithout(lru: seq<Element>, i: nat)
    requires i < |lru| && Distinct(lru)
    ensures Distinct(Without(lru, i))
    ensures forall e :: e in Without(lru, i) <==> e in lru && e.key != lru[i].key
    ensures forall e :: e in Without(lru, i) ==> e.id != lru[i].id
  {
  }

  lemma AgreesWithout(entries: map<Key, nat>, lru: seq<Element>, i: nat)
    requires i < |lru| && Distinct(lru) && Agrees(entries, lru)
    ensures Agrees(entries - {lru[i].key}, Without(lru, i))
  {
  }

  lemma PushFront(entries: map<Key, nat>, lru: seq<Element>, e: Element)
    requires Distinct(lru) && Agrees(entries, lru) && e.key !in entries
    requires forall o :: o in lru ==> o.id != e.id
    ensures Distinct([e] + lru) && Agrees(entries[e.key := e.id], [e] + lru)
    ensures Total([e] + lru) == e.bytes + Total(lru)
  {
    TotalConcat([e], lru);
    TotalOne(e);
    hide Total;
    var all, more := [e] + lru, entries[e.key := e.id];
    forall k | k in more
      ensures exists o :: o in all && o.key == k
    {
      if k == e.key {
        assert e in all;
      } else {
        var o :| o in lru && o.key == k;
        assert o in all;
      }
    }
  }

  // ----- eviction

  predicate Fits(lru: seq<Element>, size: nat, maxBytes: int, limit: int) {
    Total(lru) + size <= maxBytes && |lru| < limit
  }

  /** What eviction from the back leaves: the longest prefix that fits. */
  function Kept(lru: seq<Element>, size: nat, maxBytes: int, limit: int): (kept: seq<Element>)
    requires size <= maxBytes && limit > 0
    ensures Fits(kept, size, maxBytes, limit) && kept <= lru
  {
    if Fits(lru, size, maxBytes, limit) then lru
    else Kept(lru[..|lru| - 1], size, maxBytes, limit)
  }

  lemma {:induction false} KeptIsLongest(lru: seq<Element>, size: nat, maxBytes: int, limit: int, n: nat)
    requires size <= maxBytes && limit > 0 && n <= |lru| && Fits(lru[..n], size, maxBytes, limit)
    ensures n <= |Kept(lru, size, maxBytes, limit)|
  {
    assert lru[..|lru|] == lru;
    if !Fits(lru, size, maxBytes, limit) {
      assert n < |lru|;
      assert lru[..|lru| - 1][..n] == lru[..n];
      KeptIsLongest(lru[..|lru| - 1], size, maxBytes, limit, n);
    }
  }

  // ----- the cache

  /** The list after the key's element, if there is one, is taken out. */
  ghost function Removed(entries: map<Key, nat>, lru: seq<Element>, key: Key): seq<Element>
    requires Agrees(entries, lru)
  {
    if key in entries then
      Held(entries, lru, key);
      Without(lru, IndexOf(lru, entries[key]))
    else lru
  }

  lemma Held(entries: map<Key, nat>, lru: seq<Element>, key: Key)
    requires Agrees(entries, lru) && key in entries
    ensures exists e :: e in lru && e.id == entries[key] && e.key == key
  {
  }

  lemma HeldKey(entries: map<Key, nat>, lru: seq<Element>, key: Key, i: nat)
    requires Agrees(entries, lru) && Distinct(lru) && key in entries && i < |lru| && lru[i].id == entries[key]
    ensures lru[i].key == key
  {
  }

  ghost predicate Fresh(lru: seq<Element>, next: nat) {
    forall e :: e in lru ==> e.id < next
  }

  /** Map and list hold the same entries, the byte count is theirs, and both limits hold. */
  ghost predicate Good(entries: map<Key, nat>, lru: seq<Element>, bytes: int, next: nat, maxBytes: int, limit: int) {
    && Distinct(lru)
    && Agrees(entries, lru)
    && bytes == Total(lru)
    && Fresh(lru, next)
    && (lru != [] ==> bytes <= maxBytes && |lru| <= limit)
  }

  lemma RemoveKeeps(entries: map<Key, nat>, lru: seq<Element>, bytes: int, next: nat, maxBytes: int, limit: int, i: nat)
    requires Good(entries, lru, bytes, next, maxBytes, limit) && i < |lru|
    ensures Good(entries - {lru[i].key}, Without(lru, i), bytes - lru[i].bytes, next, maxBytes, limit)
    ensures forall e :: e in Without(lru, i) <==> e in lru && e.key != lru[i].key
  {
    TotalWithout(lru, i);
    DistinctWithout(lru, i);
    AgreesWithout(entries, lru, i);
    hide Distinct, Agrees, Total;
    assert |Without(lru, i)| == |lru| - 1;
    hide Without;
  }

  lemma PushKeeps(entries: map<Key, nat>, lru: seq<Element>, bytes: int, next: nat, maxBytes: int, limit: int, e: Element)
    requires Good(entries, lru, bytes, next, maxBytes, limit) && e.key !in entries && e.id == next
    requires bytes + e.bytes <= maxBytes && |lru| < limit
    ensures Good(entries[e.key := e.id], [e] + lru, bytes + e.bytes, next + 1, maxBytes, limit)
  {
    PushFront(entries, lru, e);
    hide Distinct, Agrees, Total;
    assert |[e] + lru| == 1 + |lru|;
  }

  lemma PutBack(entries: map<Key, nat>, key: Key)
    requires key in entries
    ensures (entries - {key})[key := entries[key]] == entries
  {
  }

  lemma MoveAgrees(entries: map<Key, nat>, lru: seq<Element>, i: nat)
    requires i < |lru| && Distinct(lru) && Agrees(entries, lru)
    ensures Distinct([lru[i]] + Without(lru, i)) && Agrees(entries, [lru[i]] + Without(lru, i))
    ensures Total([lru[i]] + Without(lru, i)) == Total(lru)
  {
    var e, rest := lru[i], Without(lru, i);
    assert e in lru;
    PutBack(entries, e.key);
    TotalWithout(lru, i);
    DistinctWithout(lru, i);
    AgreesWithout(entries, lru, i);
    hide Without, Distinct, Agrees, Total;
    PushFront(entries - {e.key}, rest, e);
  }

  lemma MoveFresh(lru: seq<Element>, i: nat, next: nat)
    requires i < |lru| && Fresh(lru, next)
    ensures Fresh([lru[i]] + Without(lru, i), next) && |[lru[i]] + Without(lru, i)| == |lru|
  {
  }

  lemma MoveKeeps(entries: map<Key, nat>, lru: seq<Element>, bytes: int, next: nat, maxBytes: int, limit: int, i: nat)
    requires Good(entries, lru, bytes, next, maxBytes, limit) && i < |lru|
    ensures Good(entries, [lru[i]] + Without(lru, i), bytes, next, maxBytes, limit)
  {
    MoveAgrees(entries, lru, i);
    MoveFresh(lru, i, next);
    hide Without, Distinct, Agrees, Total, Fresh;
  }

  lemma NotHeld(entries: map<Key, nat>, lru: seq<Element>, key: Key)
    requires Agrees(entries, lru) && key !in entries
    ensures Removed(entries, lru, key) == lru
  {
  }

  lemma GoodAgrees(entries: map<Key, nat>, lru: seq<Element>, bytes: int, next: nat, maxBytes: int, limit: int)
    requires Good(entries, lru, bytes, next, maxBytes, limit)
    ensures Agrees(entries, lru)
  {
  }

  class ImagePreparationCache {
    var entries: map<Key, nat>
    var lru: seq<Element>
    var bytes: int
    var next: nat
    const maxBytes: int
    const limit: int
    const ttl: int

    ghost predicate Valid()
      reads this
    {
      Good(entries, lru, bytes, next, maxBytes, limit)
    }

    constructor (maxBytes: int, limit: int, ttl: int)
      ensures Valid() && lru == [] && this.maxBytes == maxBytes && this.limit == limit && this.ttl == ttl
    {
      this.maxBytes, this.limit, this.ttl := maxBytes, limit, ttl;
      entries, lru, bytes, next := map[], [], 0, 0;
    }

    method Remove(i: nat)
      requires Valid() && i < |lru|
      modifies this
      ensures Valid() && lru == Without(old(lru), i) && entries == old(entries) - {old(lru)[i].key} && next == old(next)
    {
      RemoveKeeps(entries, lru, bytes, next, maxBytes, limit, i);
      hide Good, Without;
      entries := entries - {lru[i].key};
      bytes := bytes - lru[i].bytes;
      lru := Without(lru, i);
    }

    method Find(key: Key) returns (i: nat)
      requires Valid() && key in entries
      ensures i < |lru| && lru[i].key == key && lru[i].id == entries[key] && Removed(entries, lru, key) == Without(lru, i)
    {
      Held(entries, lru, key);
      i := IndexOf(lru, entries[key]);
      HeldKey(entries, lru, key, i);
    }

    method Get(key: Key, now: int) returns (hit: Option<Image>)
      requires Valid()
      modifies this
      ensures Valid() && next == old(next)
      ensures key !in old(entries) ==> hit == None && lru == old(lru)
      ensures key in old(entries) ==> Looked(old(lru), key, now, hit, lru)
    {
      hide Good, Without, Removed, Agrees, LookedAt;
      if key !in entries {
        return None;
      }
      var i := Find(key);
      var element := lru[i];
      LooksAt(lru, i, now);
      if !(now < element.expires) {
        Remove(i);
        return None;
      }
      MoveKeeps(entries, lru, bytes, next, maxBytes, limit, i);
      lru := [element] + Without(lru, i);
      return Some(element.image);
    }

    method Discard(key: Key)
      requires Valid()
      modifies this
      ensures Valid() && next == old(next) && key !in entries && lru == Removed(old(entries), old(lru), key)
    {
      GoodAgrees(entries, lru, bytes, next, maxBytes, limit);
      hide Good, Removed, Agrees, Without;
      if key in entries {
        var i := Find(key);
        Remove(i);
      } else {
        NotHeld(entries, lru, key);
      }
    }

    method Put(key: Key, image: Image, now: int)
      requires Valid()
      modifies this
      ensures Valid()
      ensures Size(image) > maxBytes || limit <= 0 || ttl <= 0 ==> lru == old(lru) && next == old(next)
      ensures Size(image) <= maxBytes && limit > 0 && ttl > 0 ==>
        && next == old(next) + 1
        && lru == [Element(old(next), key, image, Size(image), now + ttl)]
                + Kept(Removed(old(entries), old(lru), key), Size(image), maxBytes, limit)
    {
      GoodAgrees(entries, lru, bytes, next, maxBytes, limit);
      hide Good, Size, Removed, Without, Distinct, Agrees, Total, Kept, Fresh;
      var size := SizeOf(image);
      if size > maxBytes || limit <= 0 || ttl <= 0 {
        return;
      }
      Discard(key);
      Evict(key, size);
      Insert(Element(next, key, image, size, now + ttl));
    }

    method Insert(element: Element)
      requires Valid() && element.key !in entries && element.id == next
      requires bytes + element.bytes <= maxBytes && |lru| < limit
      modifies this
      ensures Valid() && lru == [element] + old(lru) && next == old(next) + 1
    {
      PushKeeps(entries, lru, bytes, next, maxBytes, limit, element);
      hide Good;
      lru := [element] + lru;
      entries := entries[element.key := element.id];
      bytes := bytes + element.bytes;
      next := next + 1;
    }

    /** Makes room from the back of the list, which is never empty when something must go. */
    method Evict(key: Key, size: nat)
      requires Valid() && size <= maxBytes && limit > 0 && key !in entries
      modifies this
      ensures Valid() && next == old(next) && key !in entries && bytes + size <= maxBytes && |lru| < limit
      ensures lru == Kept(old(lru), size, maxBytes, limit)
    {
      while bytes + size > maxBytes || |lru| >= limit
        invariant Valid() && next == old(next) && key !in entries
        invariant Kept(lru, size, maxBytes, limit) == Kept(old(lru), size, maxBytes, limit)
        decreases |lru|
      {
        assert Without(lru, |lru| - 1) == lru[..|lru| - 1];
        Remove(|lru| - 1);
      }
    }

    /** The timer of element `id`: it removes that element or nothing. */
    method Expire(key: Key, id: nat)
      requires Valid()
      modifies this
      ensures Valid() && next == old(next)
      ensures lru == if key in old(entries) && old(entries)[key] == id then Removed(old(entries), old(lru), key) else old(lru)
      ensures forall e :: e in old(lru) && e.id != id ==> e in lru
    {
      if key in entries && entries[key] == id {
        var i := Find(key);
        RemoveKeeps(entries, lru, bytes, next, maxBytes, limit, i);
        OnlyHolder(lru, i);
        hide Good, Without, Removed, Agrees;
        Remove(i);
      }
    }
  }

  lemma OnlyHolder(lru: seq<Element>, i: nat)
    requires i < |lru| && Distinct(lru)
    ensures forall e :: e in lru && e.id != lru[i].id ==> e in Without(lru, i)
  {
  }

  ghost predicate LookedAt(before: seq<Element>, i: nat, key: Key, now: int, hit: Option<Image>, after: seq<Element>)
    requires i < |before|
  {
    && before[i].key == key
    && if now < before[i].expires then hit == Some(before[i].image) && after == [before[i]] + Without(before, i)
       else hit == None && after == Without(before, i)
  }

  lemma LooksAt(before: seq<Element>, i: nat, now: int)
    requires i < |before|
    ensures if now < before[i].expires then
              LookedAt(before, i, before[i].key, now, Some(before[i].image), [before[i]] + Without(before, i))
            else LookedAt(before, i, before[i].key, now, None, Without(before, i))
  {
  }

  /** A lookup of a held key moves its element to the front, or drops it if it has expired. */
  ghost predicate Looked(before: seq<Element>, key: Key, now: int, hit: Option<Image>, after: seq<Element>) {
    exists i: nat :: i < |before| && LookedAt(before, i, key, now, hit, after)
  }

  // ----- preparing through the cache

  const MAX_SOURCE_BYTES: nat := 32 * 1024 * 1024

  function EncodedLen(n: nat): nat {
    (n + 2) / 3 * 4
  }

  ghost predicate Injective(keyOf: string -> Key) {
    forall s, t :: keyOf(s) == keyOf(t) ==> s == t
  }

  /** Every entry is what the loader makes of its source. */
  ghost predicate Faithful(lru: seq<Element>, load: string -> Image, keyOf: string -> Key) {
    forall e, source :: e in lru && keyOf(source) == e.key ==> e.image == load(source)
  }

  lemma FaithfulFewer(before: seq<Element>, after: seq<Element>, load: string -> Image, keyOf: string -> Key)
    requires Faithful(before, load, keyOf) && forall e :: e in after ==> e in before
    ensures Faithful(after, load, keyOf)
  {
  }

  lemma FaithfulPush(lru: seq<Element>, e: Element, source: string, load: string -> Image, keyOf: string -> Key)
    requires Faithful(lru, load, keyOf) && Injective(keyOf) && e.key == keyOf(source) && e.image == load(source)
    ensures Faithful([e] + lru, load, keyOf)
  {
  }

  lemma LookedFaithful(before: seq<Element>, key: Key, now: int, hit: Option<Image>, after: seq<Element>, load: string -> Image, keyOf: string -> Key)
    requires Faithful(before, load, keyOf) && Looked(before, key, now, hit, after)
    ensures Faithful(after, load, keyOf)
    ensures forall source :: hit.Some? && keyOf(source) == key ==> hit.value == load(source)
  {
  }

  lemma RemovedFewer(entries: map<Key, nat>, lru: seq<Element>, key: Key)
    requires Agrees(entries, lru)
    ensures forall e :: e in Removed(entries, lru, key) ==> e in lru
  {
  }

  lemma PrefixFewer(kept: seq<Element>, lru: seq<Element>)
    requires kept <= lru
    ensures forall e :: e in kept ==> e in lru
  {
  }

  method Lookup(cache: ImagePreparationCache, key: Key, load: string -> Image, keyOf: string -> Key, now: int) returns (hit: Option<Image>)
    requires cache.Valid() && Faithful(cache.lru, load, keyOf)
    modifies cache
    ensures cache.Valid() && Faithful(cache.lru, load, keyOf)
    ensures forall source :: hit.Some? && keyOf(source) == key ==> hit.value == load(source)
    ensures hit.Some? <==> HeldFresh(old(cache.lru), key, now)
    ensures hit.Some? ==> InFront(cache.lru, key, hit.value)
  {
    ghost var before, held := cache.lru, key in cache.entries;
    GoodAgrees(cache.entries, before, cache.bytes, cache.next, cache.maxBytes, cache.limit);
    GoodDistinct(cache.entries, before, cache.bytes, cache.next, cache.maxBytes, cache.limit);
    NotThere(cache.entries, before, key, now);
    hide Good, Looked, Faithful, HeldFresh, InFront, Agrees, Distinct;
    hit := cache.Get(key, now);
    if held {
      LookedFaithful(before, key, now, hit, cache.lru, load, keyOf);
      LookedHits(before, key, now, hit, cache.lru);
    }
  }

  /** The list holds the key and its entry has not expired. */
  ghost predicate HeldFresh(lru: seq<Element>, key: Key, now: int) {
    exists e :: e in lru && e.key == key && now < e.expires
  }

  ghost predicate InFront(lru: seq<Element>, key: Key, image: Image) {
    lru != [] && lru[0].key == key && lru[0].image == image
  }

  lemma GoodDistinct(entries: map<Key, nat>, lru: seq<Element>, bytes: int, next: nat, maxBytes: int, limit: int)
    requires Good(entries, lru, bytes, next, maxBytes, limit)
    ensures Distinct(lru)
  {
  }

  lemma NotThere(entries: map<Key, nat>, lru: seq<Element>, key: Key, now: int)
    requires Agrees(entries, lru)
    ensures key !in entries ==> !HeldFresh(lru, key, now)
  {
  }

  lemma LookedHits(before: seq<Element>, key: Key, now: int, hit: Option<Image>, after: seq<Element>)
    requires Distinct(before) && Looked(before, key, now, hit, after)
    ensures hit.Some? <==> HeldFresh(before, key, now)
    ensures hit.Some? ==> InFront(after, key, hit.value)
  {
    var i: nat :| i < |before| && LookedAt(before, i, key, now, hit, after);
    assert before[i] in before;
    forall e | e in before && e.key == key
      ensures e == before[i]
    {
      var j :| 0 <= j < |before| && before[j] == e;
    }
    hide Without;
  }

  /** The cache takes the image at all. */
  predicate Storable(image: Image, maxBytes: int, limit: int, ttl: int) {
    Size(image) <= maxBytes && limit > 0 && ttl > 0
  }

  method Store(cache: ImagePreparationCache, source: string, load: string -> Image, keyOf: string -> Key, now: int)
    requires cache.Valid() && Faithful(cache.lru, load, keyOf) && Injective(keyOf)
    modifies cache
    ensures cache.Valid() && Faithful(cache.lru, load, keyOf)
    ensures Storable(load(source), cache.maxBytes, cache.limit, cache.ttl) ==>
              InFront(cache.lru, keyOf(source), load(source)) && cache.lru[0].expires == now + cache.ttl
  {
    ghost var entries, before, next := cache.entries, cache.lru, cache.next;
    GoodAgrees(entries, before, cache.bytes, next, cache.maxBytes, cache.limit);
    hide Good, Faithful, Removed, Kept, Size, Agrees, Injective;
    var key, image := keyOf(source), load(source);
    cache.Put(key, image, now);
    if Size(image) <= cache.maxBytes && cache.limit > 0 && cache.ttl > 0 {
      ghost var rest := Removed(entries, before, key);
      ghost var kept := Kept(rest, Size(image), cache.maxBytes, cache.limit);
      RemovedFewer(entries, before, key);
      FaithfulFewer(before, rest, load, keyOf);
      PrefixFewer(kept, rest);
      FaithfulFewer(rest, kept, load, keyOf);
      FaithfulPush(kept, Element(next, key, image, Size(image), now + cache.ttl), source, load, keyOf);
    }
  }

  datatype Other = Looks(key: Key, now: int) | Stores(source: string, now: int) | Expires(key: Key, id: nat)

  predicate EndsStoring(others: seq<Other>, source: string, now: int) {
    others != [] && others[|others| - 1] == Stores(source, now)
  }

  /** What other callers and timers do while a caller does not hold the lock. */
  method Interfere(cache: ImagePreparationCache, others: seq<Other>, load: string -> Image, keyOf: string -> Key)
    requires cache.Valid() && Faithful(cache.lru, load, keyOf) && Injective(keyOf)
    modifies cache
    ensures cache.Valid() && Faithful(cache.lru, load, keyOf)
    ensures others == [] ==> cache.lru == old(cache.lru)
    ensures forall now, source :: EndsStoring(others, source, now) && Storable(load(source), cache.maxBytes, cache.limit, cache.ttl) ==>
              InFront(cache.lru, keyOf(source), load(source)) && cache.lru[0].expires == now + cache.ttl
  {
    hide Good, Faithful, Injective;
    for i := 0 to |others|
      invariant cache.Valid() && Faithful(cache.lru, load, keyOf)
      invariant i == 0 ==> cache.lru == old(cache.lru)
      invariant forall now, source :: i > 0 && others[i - 1] == Stores(source, now) && Storable(load(source), cache.maxBytes, cache.limit, cache.ttl) ==>
                  InFront(cache.lru, keyOf(source), load(source)) && cache.lru[0].expires == now + cache.ttl
    {
      match others[i]
      case Looks(key, now) => var _ := Lookup(cache, key, load, keyOf, now);
      case Stores(source, now) => Store(cache, source, load, keyOf, now);
      case Expires(key, id) => Timer(cache, key, id, load, keyOf);
    }
  }

  method Timer(cache: ImagePreparationCache, key: Key, id: nat, load: string -> Image, keyOf: string -> Key)
    requires cache.Valid() && Faithful(cache.lru, load, keyOf)
    modifies cache
    ensures cache.Valid() && Faithful(cache.lru, load, keyOf)
  {
    ghost var entries, before := cache.entries, cache.lru;
    GoodAgrees(entries, before, cache.bytes, cache.next, cache.maxBytes, cache.limit);
    RemovedFewer(entries, before, key);
    hide Good, Faithful, Removed, Agrees;
    cache.Expire(key, id);
    FaithfulFewer(before, cache.lru, load, keyOf);
  }

  lemma FrontIsHeld(lru: seq<Element>, key: Key, image: Image, now: int)
    ensures InFront(lru, key, image) && now < lru[0].expires ==> HeldFresh(lru, key, now)
  {
    assert lru != [] ==> lru[0] in lru;
  }

  /** What happens at one point of a call: what others did before it, whether the caller's context
      has ended, and the time. */
  datatype Point = Point(others: seq<Other>, cancelled: bool, now: int)

  /** Whatever other callers do meanwhile, the answer is what the loader makes of the source, there
      is one unless the call was cancelled, and afterwards the image stands in front if it fits. A
      fresh entry is returned without loading. */
  method Prepare(cache: ImagePreparationCache, source: string, load: string -> Image, keyOf: string -> Key,
                 entering: Point, waiting: Point, loading: Point)
    returns (r: Option<Image>, loaded: bool)
    requires cache.Valid() && Faithful(cache.lru, load, keyOf) && Injective(keyOf)
    modifies cache
    ensures cache.Valid() && Faithful(cache.lru, load, keyOf)
    ensures r.Some? ==> r.value == load(source)
    ensures r.None? ==> entering.cancelled || waiting.cancelled || loading.cancelled
    ensures entering.cancelled ==> r.None? && !loaded && cache.lru == old(cache.lru)
    ensures !entering.cancelled && |source| > EncodedLen(MAX_SOURCE_BYTES) ==> r.Some? && loaded && cache.lru == old(cache.lru)
    ensures !entering.cancelled && |source| <= EncodedLen(MAX_SOURCE_BYTES) && HeldFresh(old(cache.lru), keyOf(source), entering.now) ==>
              r.Some? && !loaded && InFront(cache.lru, keyOf(source), load(source))
    ensures r.Some? && |source| <= EncodedLen(MAX_SOURCE_BYTES) && Storable(load(source), cache.maxBytes, cache.limit, cache.ttl) ==>
              InFront(cache.lru, keyOf(source), load(source))
    ensures r.Some? && !loaded ==> InFront(cache.lru, keyOf(source), load(source))
    ensures forall now :: EndsStoring(waiting.others, source, now) && waiting.now < now + cache.ttl ==>
              Storable(load(source), cache.maxBytes, cache.limit, cache.ttl) && |source| <= EncodedLen(MAX_SOURCE_BYTES) ==> !loaded
  {
    hide Good, Faithful, Injective, HeldFresh, InFront, Storable, EncodedLen, EndsStoring;
    loaded := false;
    if entering.cancelled {
      return None, loaded;
    }
    if |source| > EncodedLen(MAX_SOURCE_BYTES) {
      return Some(load(source)), true;
    }
    var key := keyOf(source);
    var hit := Lookup(cache, key, load, keyOf, entering.now);
    if hit.Some? {
      return hit, loaded;
    }
    Interfere(cache, waiting.others, load, keyOf);
    if waiting.cancelled {
      return None, loaded;
    }
    FrontIsHeld(cache.lru, key, load(source), waiting.now);
    hit := Lookup(cache, key, load, keyOf, waiting.now);
    if hit.Some? {
      return hit, loaded;
    }
    var image := load(source);
    loaded := true;
    Interfere(cache, loading.others, load, keyOf);
    if loading.cancelled {
      return None, loaded;
    }
    Store(cache, source, load, keyOf, loading.now);
    return Some(image), loaded;
  }
}

/**
 * The job state: an ordered map from integer or string keys to PHP values whose `put`
 * refuses closures and resources, with `serialize` and `unserialize` through PHP's
 * serialization format (reduced here to a token sequence).
 */
module JobStates {
  import opened Wrappers

  /** A PHP array key. */
  datatype Key = IntKey(i: int) | StrKey(s: string)

  /**
   * A value a job state can hold: a scalar, an array, a closure or a resource. Objects other
   * than closures are not part of the model.
   */
  datatype StateValue =
    | SNull
    | SBool(b: bool)
    | SInt(i: int)
    | SFloat(r: real)
    | SStr(s: string)
    | SArray(entries: seq<Item>)
    | SClosure
    | SResource

  datatype Item = Item(key: Key, value: StateValue)

  /** No two entries share a key, as in every PHP array. */
  predicate DistinctKeys(s: seq<Item>)
  {
    forall i, j | 0 <= i < j < |s| :: s[i].key != s[j].key
  }

  /** Distinct keys at every level of nesting. */
  predicate WellFormed(v: StateValue)
  {
    match v
    case SArray(es) => DistinctKeys(es) && forall it | it in es :: WellFormed(it.value)
    case _ => true
  }

  /** No closure at any level: PHP refuses to serialize closures. */
  predicate Serializable(v: StateValue)
  {
    match v
    case SClosure => false
    case SArray(es) => forall it | it in es :: Serializable(it.value)
    case _ => true
  }

  /** Neither closures nor resources at any level: the values serialization reproduces exactly. */
  predicate Plain(v: StateValue)
  {
    match v
    case SClosure => false
    case SResource => false
    case SArray(es) => forall it | it in es :: Plain(it.value)
    case _ => true
  }

  /** The position of `k` in `s`. */
  function IndexOf(s: seq<Item>, k: Key): (r: Option<nat>)
    ensures r.Some? ==> r.value < |s| && s[r.value].key == k
    ensures r.Some? ==> forall j | 0 <= j < r.value :: s[j].key != k
    ensures r.None? <==> forall j | 0 <= j < |s| :: s[j].key != k
  {
    if |s| == 0 then None
    else if s[0].key == k then Some(0)
    else match IndexOf(s[1..], k)
      case None => None
      case Some(i) => Some(i + 1)
  }

  /** The first entry with key `k` is where `IndexOf` finds it. */
  lemma IndexOfFirst(s: seq<Item>, k: Key, j: nat)
    requires j < |s| && s[j].key == k && forall j' | 0 <= j' < j :: s[j'].key != k
    ensures IndexOf(s, k) == Some(j)
  {
  }

  /** Two sequences with the same keys in the same places agree on every position. */
  lemma IndexOfSameKeys(s: seq<Item>, t: seq<Item>, k: Key)
    requires |s| == |t| && forall j | 0 <= j < |s| :: s[j].key == t[j].key
    ensures IndexOf(s, k) == IndexOf(t, k)
  {
    if IndexOf(s, k).Some? {
      IndexOfFirst(t, k, IndexOf(s, k).value);
    }
  }

  /** Appending an entry with another key moves no key. */
  lemma IndexOfAppend(s: seq<Item>, x: Item, k: Key)
    requires x.key != k
    ensures IndexOf(s + [x], k) == IndexOf(s, k)
  {
    if IndexOf(s, k).Some? {
      IndexOfFirst(s + [x], k, IndexOf(s, k).value);
    }
  }

  /** `$items[$k] = $v`: overwrites in place when `k` is present, appends otherwise. */
  function Insert(s: seq<Item>, k: Key, v: StateValue): (r: seq<Item>)
    ensures IndexOf(s, k).Some? ==> |r| == |s| && forall j | 0 <= j < |s| :: r[j].key == s[j].key
    ensures IndexOf(s, k).None? ==> r == s + [Item(k, v)]
    ensures forall it | it in r :: it in s || it == Item(k, v)
    ensures DistinctKeys(s) ==> DistinctKeys(r)
  {
    match IndexOf(s, k)
    case Some(i) => s[i := Item(k, v)]
    case None => s + [Item(k, v)]
  }

  /** `unset($items[$k])`: drops the entry for `k`, keeping the others in order. */
  function Remove(s: seq<Item>, k: Key): (r: seq<Item>)
    ensures IndexOf(r, k).None?
    ensures forall it :: it in r <==> it in s && it.key != k
    ensures DistinctKeys(s) ==> DistinctKeys(r)
    ensures |r| <= |s|
  {
    if |s| == 0 then []
    else (if s[0].key == k then [] else [s[0]]) + Remove(s[1..], k)
  }

  /** Removing a key leaves every other key where it was. */
  lemma {:induction false} RemoveKeepsOthers(s: seq<Item>, k: Key, k': Key)
    requires DistinctKeys(s) && k' != k
    ensures (IndexOf(s, k').Some? <==> IndexOf(Remove(s, k), k').Some?)
    ensures IndexOf(s, k').Some? ==> Remove(s, k)[IndexOf(Remove(s, k), k').value] == s[IndexOf(s, k').value]
  {
    var r := Remove(s, k);
    if IndexOf(s, k').Some? {
      var it := s[IndexOf(s, k').value];
      assert it in r;
    }
  }

  // The token form of PHP's serialization: scalars, then an array as its size, its
  // entries (a key token, then the value) and an end marker.
  datatype Token = TNull | TBool(b: bool) | TInt(i: int) | TFloat(r: real) | TStr(s: string) | TArray(n: nat) | TEnd

  function KeyToken(k: Key): Token
  {
    match k
    case IntKey(i) => TInt(i)
    case StrKey(s) => TStr(s)
  }

  function DecodeKey(t: Token): (k: Option<Key>)
    ensures k.Some? ==> KeyToken(k.value) == t
  {
    match t
    case TInt(i) => Some(IntKey(i))
    case TStr(s) => Some(StrKey(s))
    case _ => None
  }

  /** `serialize($value)`; a resource is written as the integer 0. */
  function Encode(v: StateValue): seq<Token>
    requires Serializable(v)
    decreases v, 1
  {
    match v
    case SNull => [TNull]
    case SBool(b) => [TBool(b)]
    case SInt(i) => [TInt(i)]
    case SFloat(r) => [TFloat(r)]
    case SStr(s) => [TStr(s)]
    case SResource => [TInt(0)]
    case SArray(es) => [TArray(|es|)] + EncodeItems(v, 0) + [TEnd]
  }

  function EncodeItems(parent: StateValue, i: nat): seq<Token>
    requires parent.SArray? && i <= |parent.entries| && Serializable(parent)
    decreases parent, 0, |parent.entries| - i
  {
    if i == |parent.entries| then []
    else
      var it := parent.entries[i];
      assert it in parent.entries;
      [KeyToken(it.key)] + Encode(it.value) + EncodeItems(parent, i + 1)
  }

  /** `unserialize`: one value from the front of `ts`, and what follows it. */
  function DecodeValue(ts: seq<Token>): (r: Option<(StateValue, seq<Token>)>)
    ensures r.Some? ==> |r.value.1| < |ts|
    decreases |ts|, 1
  {
    if |ts| == 0 then None
    else match ts[0]
      case TNull => Some((SNull, ts[1..]))
      case TBool(b) => Some((SBool(b), ts[1..]))
      case TInt(i) => Some((SInt(i), ts[1..]))
      case TFloat(x) => Some((SFloat(x), ts[1..]))
      case TStr(s) => Some((SStr(s), ts[1..]))
      case TEnd => None
      case TArray(n) =>
        match DecodeItems(ts[1..], n, [])
        case None => None
        case Some((es, rest)) =>
          if |rest| > 0 && rest[0] == TEnd then Some((SArray(es), rest[1..])) else None
  }

  /** `n` more entries into `acc`; a repeated key overwrites, as assignment into an array does. */
  function DecodeItems(ts: seq<Token>, n: nat, acc: seq<Item>): (r: Option<(seq<Item>, seq<Token>)>)
    ensures r.Some? ==> |r.value.1| <= |ts|
    decreases |ts|, 0
  {
    if n == 0 then Some((acc, ts))
    else if |ts| == 0 then None
    else match DecodeKey(ts[0])
      case None => None
      case Some(k) =>
        match DecodeValue(ts[1..])
        case None => None
        case Some((v, rest)) => DecodeItems(rest, n - 1, Insert(acc, k, v))
  }

  /** Decoding only builds well-formed values: a repeated key overwrites instead of adding an entry. */
  lemma {:induction false} DecodeValueWellFormed(ts: seq<Token>)
    ensures DecodeValue(ts).Some? ==> WellFormed(DecodeValue(ts).value.0)
    decreases |ts|, 1
  {
    if |ts| > 0 && ts[0].TArray? {
      DecodeItemsWellFormed(ts[1..], ts[0].n, []);
    }
  }

  /** Decoding entries into well-formed ones with distinct keys keeps them so. */
  lemma {:induction false} DecodeItemsWellFormed(ts: seq<Token>, n: nat, acc: seq<Item>)
    requires DistinctKeys(acc) && forall it | it in acc :: WellFormed(it.value)
    ensures DecodeItems(ts, n, acc).Some? ==>
              var es := DecodeItems(ts, n, acc).value.0;
              DistinctKeys(es) && forall it | it in es :: WellFormed(it.value)
    decreases |ts|, 0
  {
    if n > 0 && |ts| > 0 && DecodeKey(ts[0]).Some? {
      var k := DecodeKey(ts[0]).value;
      DecodeValueWellFormed(ts[1..]);
      match DecodeValue(ts[1..])
      case None =>
      case Some((v, rest)) =>
        DecodeItemsWellFormed(rest, n - 1, Insert(acc, k, v));
    }
  }

  /** Decoding what was encoded gives the value back and leaves what followed untouched. */
  lemma {:induction false} DecodeEncode(v: StateValue, rest: seq<Token>)
    requires Plain(v) && WellFormed(v)
    ensures Serializable(v)
    ensures DecodeValue(Encode(v) + rest) == Some((v, rest))
    decreases v, 1
  {
    PlainIsSerializable(v);
    var ts := Encode(v) + rest;
    if v.SArray? {
      var es := v.entries;
      var after := [TEnd] + rest;
      assert ts[0] == TArray(|es|) && ts[1..] == EncodeItems(v, 0) + after;
      assert DecodeItems(ts[1..], |es|, []) == Some((es, after)) by {
        DecodeEncodeItems(v, 0, after);
        assert es[..0] == [];
      }
      assert after[0] == TEnd && after[1..] == rest;
    } else {
      assert |Encode(v)| == 1 && ts[1..] == rest;
    }
  }

  lemma {:induction false} DecodeEncodeItems(parent: StateValue, i: nat, rest: seq<Token>)
    requires parent.SArray? && i <= |parent.entries| && Plain(parent) && WellFormed(parent) && Serializable(parent)
    ensures DecodeItems(EncodeItems(parent, i) + rest, |parent.entries| - i, parent.entries[..i])
         == Some((parent.entries, rest))
    decreases parent, 0, |parent.entries| - i
  {
    var es := parent.entries;
    if i == |es| {
      DecodeNoItems(parent, rest);
    } else {
      var it := es[i];
      assert it in es;
      var tail := EncodeItems(parent, i + 1) + rest;
      calc {
        DecodeItems(EncodeItems(parent, i) + rest, |es| - i, es[..i]);
        { EncodeItemsStep(parent, i, rest); }
        DecodeItems([KeyToken(it.key)] + (Encode(it.value) + tail), |es| - i, es[..i]);
        { DecodeEncode(it.value, tail); DecodeEntry(es, i, Encode(it.value) + tail, tail); }
        DecodeItems(tail, |es| - (i + 1), es[..i + 1]);
        { DecodeEncodeItems(parent, i + 1, rest); }
        Some((es, rest));
      }
    }
  }

  /** Past the last entry nothing is encoded and nothing more is decoded. */
  lemma DecodeNoItems(parent: StateValue, rest: seq<Token>)
    requires parent.SArray? && Serializable(parent)
    ensures DecodeItems(EncodeItems(parent, |parent.entries|) + rest, 0, parent.entries[..|parent.entries|])
         == Some((parent.entries, rest))
  {
    assert EncodeItems(parent, |parent.entries|) + rest == rest;
    assert parent.entries[..|parent.entries|] == parent.entries;
  }

  /** The encoding of entries `i..` starts with entry `i`'s key token and value. */
  lemma EncodeItemsStep(parent: StateValue, i: nat, rest: seq<Token>)
    requires parent.SArray? && i < |parent.entries| && Serializable(parent)
    ensures parent.entries[i] in parent.entries && Serializable(parent.entries[i].value)
    ensures EncodeItems(parent, i) + rest
         == [KeyToken(parent.entries[i].key)] + (Encode(parent.entries[i].value) + (EncodeItems(parent, i + 1) + rest))
  {
    assert parent.entries[i] in parent.entries;
  }

  /** Decoding entry `i` of an array with distinct keys appends it to the entries before it. */
  lemma DecodeEntry(es: seq<Item>, i: nat, ts: seq<Token>, rest: seq<Token>)
    requires i < |es| && DistinctKeys(es) && DecodeValue(ts) == Some((es[i].value, rest))
    ensures DecodeItems([KeyToken(es[i].key)] + ts, |es| - i, es[..i]) == DecodeItems(rest, |es| - (i + 1), es[..i + 1])
  {
    DecodeItemsStep(es[i].key, ts, |es| - i, es[..i], es[i].value, rest);
    InsertFresh(es, i);
  }

  /** One entry: its key token, then its value. */
  lemma DecodeItemsStep(k: Key, ts: seq<Token>, n: nat, acc: seq<Item>, v: StateValue, rest: seq<Token>)
    requires n > 0 && DecodeValue(ts) == Some((v, rest))
    ensures DecodeItems([KeyToken(k)] + ts, n, acc) == DecodeItems(rest, n - 1, Insert(acc, k, v))
  {
    var x := [KeyToken(k)] + ts;
    assert x[1..] == ts;
    assert DecodeKey(x[0]) == Some(k);
  }

  /** In an array with distinct keys, inserting the next entry into the ones before it appends it. */
  lemma InsertFresh(es: seq<Item>, i: nat)
    requires i < |es| && DistinctKeys(es)
    ensures Insert(es[..i], es[i].key, es[i].value) == es[..i + 1]
  {
    assert IndexOf(es[..i], es[i].key).None? by {
      forall j | 0 <= j < i
        ensures es[..i][j].key != es[i].key
      {
        assert es[j].key != es[i].key;
      }
    }
    assert es[..i] + [Item(es[i].key, es[i].value)] == es[..i + 1];
  }

  lemma {:induction false} PlainIsSerializable(v: StateValue)
    requires Plain(v)
    ensures Serializable(v)
    decreases v
  {
    if v.SArray? {
      forall it | it in v.entries
        ensures Serializable(it.value)
      {
        PlainIsSerializable(it.value);
      }
    }
  }

  /** The items `unserialize` stores: the decoded array, or none when the data is not one serialized array. */
  function UnserializedItems(ts: seq<Token>): (items: seq<Item>)
    ensures DistinctKeys(items)
  {
    DecodeValueWellFormed(ts);
    match DecodeValue(ts)
    case Some((SArray(es), _)) => es
    case _ => []
  }

  class JobState {
    var items: seq<Item>

    ghost predicate Valid()
      reads this
    {
      DistinctKeys(items)
    }

    constructor (items: seq<Item>)
      requires DistinctKeys(items)
      ensures Valid() && this.items == items
    {
      this.items := items;
    }

    /** `all()`. */
    function All(): (all: seq<Item>)
      reads this
      ensures all == items
    {
      items
    }

    /** `has($key)`: whether some entry has the key, whatever its value. */
    function Has(key: Key): (b: bool)
      reads this
      ensures b <==> exists j | 0 <= j < |items| :: items[j].key == key
    {
      IndexOf(items, key).Some?
    }

    /**
     * `get($key, $default)`: the stored value, or `value($default)`. A closure default is
     * called, and `called` is what that call returns.
     */
    function Get(key: Key, default: StateValue, called: StateValue): (v: StateValue)
      reads this
      ensures forall j | 0 <= j < |items| && items[j].key == key && Valid() :: v == items[j].value
      ensures (forall j | 0 <= j < |items| :: items[j].key != key) && !default.SClosure? ==> v == default
      ensures (forall j | 0 <= j < |items| :: items[j].key != key) && default.SClosure? ==> v == called
    {
      match IndexOf(items, key)
      case Some(i) => items[i].value
      case None => if default.SClosure? then called else default
    }

    /** `isEmpty()`. */
    function IsEmpty(): (b: bool)
      reads this
      ensures b <==> items == []
    {
      |items| == 0
    }

    /**
     * `put($key, $value)`: a closure or a resource is refused with "Wrong value passed"
     * before anything changes; any other value is stored under the key.
     */
    method Put(key: Key, value: StateValue) returns (error: Option<string>)
      requires Valid()
      modifies this
      ensures Valid()
      ensures error.Some? <==> value.SClosure? || value.SResource?
      ensures error.Some? ==> error.value == "Wrong value passed" && items == old(items)
      ensures error.None? ==> items == Insert(old(items), key, value)
    {
      if value.SResource? || value.SClosure? {
        return Some("Wrong value passed");
      }
      items := Insert(items, key, value);
      error := None;
    }

    /** `forget($key)`. */
    method Forget(key: Key)
      requires Valid()
      modifies this
      ensures Valid()
      ensures items == Remove(old(items), key)
    {
      items := Remove(items, key);
    }

    /** `serialize()`: fails, as PHP does, when a closure is nested anywhere in the state. */
    function Serialize(): (data: Option<seq<Token>>)
      reads this
      ensures data.Some? <==> Serializable(SArray(items))
    {
      if Serializable(SArray(items)) then Some(Encode(SArray(items))) else None
    }

    /** `unserialize($data)`: replaces all items with the decoded ones. */
    method Unserialize(data: seq<Token>)
      modifies this
      ensures Valid()
      ensures items == UnserializedItems(data)
    {
      items := UnserializedItems(data);
    }
  }

  /** After an accepted `put(k, v)`, `get(k)` is `v` and every other key is where it was. */
  lemma {:induction false} GetAfterPut(s: seq<Item>, k: Key, v: StateValue, other: Key)
    requires other != k
    ensures var r := Insert(s, k, v);
      && IndexOf(r, k).Some? && r[IndexOf(r, k).value].value == v
      && IndexOf(r, other) == IndexOf(s, other)
  {
    var r := Insert(s, k, v);
    match IndexOf(s, k)
    case Some(i) =>
      IndexOfFirst(r, k, i);
      IndexOfSameKeys(s, r, other);
    case None =>
      IndexOfFirst(r, k, |s|);
      IndexOfAppend(s, Item(k, v), other);
  }

  /** After `forget(k)` the key is gone and every other key keeps its value. */
  lemma ForgetRemoves(s: seq<Item>, k: Key, other: Key)
    requires DistinctKeys(s) && other != k
    ensures IndexOf(Remove(s, k), k).None?
    ensures IndexOf(s, other).Some? <==> IndexOf(Remove(s, k), other).Some?
    ensures IndexOf(s, other).Some? ==>
              Remove(s, k)[IndexOf(Remove(s, k), other).value].value == s[IndexOf(s, other).value].value
  {
    RemoveKeepsOthers(s, k, other);
  }

  /**
   * A state of plain values survives `unserialize(serialize(...))` with its keys, values and
   * order, and whatever follows the serialized state is ignored.
   */
  lemma SerializeRoundTrip(items: seq<Item>, trailing: seq<Token>)
    requires WellFormed(SArray(items)) && Plain(SArray(items))
    ensures Serializable(SArray(items))
    ensures UnserializedItems(Encode(SArray(items))) == items
    ensures UnserializedItems(Encode(SArray(items)) + trailing) == items
  {
    DecodeEncode(SArray(items), []);
    assert Encode(SArray(items)) + [] == Encode(SArray(items));
    DecodeEncode(SArray(items), trailing);
  }

}

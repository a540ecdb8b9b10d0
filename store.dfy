/**
 * The shared key-value store as the room code uses it: list keys (EXISTS, DEL,
 * LLEN, RPUSH, RPOP at the tail) and hash keys (HEXISTS, HGET, HSET). Values are
 * the strings the code encodes roles as. Expiry is not modelled.
 */
module Store {
  import opened Wrappers

  datatype StoreError = EmptyPush

  class Store {
    var lists: map<string, seq<string>>
    var hashes: map<string, map<string, string>>

    constructor ()
      ensures lists == map[] && hashes == map[]
    {
      lists := map[];
      hashes := map[];
    }

    function ListAt(key: string): seq<string>
      reads this
    {
      if key in lists then lists[key] else []
    }

    function HashAt(key: string): map<string, string>
      reads this
    {
      if key in hashes then hashes[key] else map[]
    }

    /** EXISTS on a list key. */
    method Exists(key: string) returns (b: bool)
      ensures b == (key in lists)
    {
      b := key in lists;
    }

    /** DEL */
    method Delete(key: string)
      modifies this
      ensures lists == old(lists) - {key} && hashes == old(hashes)
    {
      lists := lists - {key};
    }

    /** LLEN: 0 for a missing key. */
    method LLen(key: string) returns (n: nat)
      ensures n == |ListAt(key)|
    {
      n := if key in lists then |lists[key]| else 0;
    }

    /** RPOP: the last element, removed; None on a missing or empty list. */
    method RPop(key: string) returns (v: Option<string>)
      modifies this
      ensures hashes == old(hashes)
      ensures old(ListAt(key)) == [] ==> v == None && lists == old(lists)
      ensures old(ListAt(key)) != [] ==>
        var l := old(lists[key]);
        v == Some(l[|l| - 1]) && lists == old(lists)[key := l[..|l| - 1]]
    {
      if key in lists && lists[key] != [] {
        var l := lists[key];
        v := Some(l[|l| - 1]);
        lists := lists[key := l[..|l| - 1]];
      } else {
        v := None;
      }
    }

    /** RPUSH of one or more values, returning the new length; with no values the store answers an error. */
    method RPush(key: string, values: seq<string>) returns (r: Result<nat, StoreError>)
      modifies this
      ensures hashes == old(hashes)
      ensures values == [] ==> r == Err(EmptyPush) && lists == old(lists)
      ensures values != [] ==>
        lists == old(lists)[key := old(ListAt(key)) + values] && r == Ok(|old(ListAt(key))| + |values|)
    {
      if values == [] {
        r := Err(EmptyPush);
      } else {
        var l := if key in lists then lists[key] else [];
        lists := lists[key := l + values];
        r := Ok(|l| + |values|);
      }
    }

    /** HEXISTS */
    method HExists(key: string, field: string) returns (b: bool)
      ensures b == (field in HashAt(key))
    {
      b := key in hashes && field in hashes[key];
    }

    /** HGET */
    method HGet(key: string, field: string) returns (v: Option<string>)
      ensures field in HashAt(key) ==> v == Some(HashAt(key)[field])
      ensures field !in HashAt(key) ==> v == None
    {
      if key in hashes && field in hashes[key] {
        v := Some(hashes[key][field]);
      } else {
        v := None;
      }
    }

    /** HSET of one field, returning 1 when the field is new and 0 when it is overwritten. */
    method HSet(key: string, field: string, value: string) returns (added: nat)
      modifies this
      ensures lists == old(lists)
      ensures hashes == old(hashes)[key := old(HashAt(key))[field := value]]
      ensures added == if field in old(HashAt(key)) then 0 else 1
    {
      var h := if key in hashes then hashes[key] else map[];
      added := if field in h then 0 else 1;
      hashes := hashes[key := h[field := value]];
    }
  }
}

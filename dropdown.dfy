/**
 * `move_to_front` (MR.py:59-62), used to reorder the dialog's dropdown lists so
 * the previously used value comes first: `lst.remove(item)` deletes the first
 * occurrence (raising ValueError when there is none), `lst.insert(0, item)`
 * puts it at the head, and the same list object is returned.
 */
module Dropdown {
  import opened Wrappers

  /** Index of the first occurrence of `x` in `s`. */
  function FirstIndex(s: seq<string>, x: string): (i: nat)
    requires x in s
    ensures i < |s| && s[i] == x && x !in s[..i]
  {
    if s[0] == x then 0 else FirstIndex(s[1..], x) + 1
  }

  /** Python's `list.remove`: the list without the first occurrence of `x`. */
  function RemoveFirst(s: seq<string>, x: string): (r: seq<string>)
    requires x in s
    ensures r == s[..FirstIndex(s, x)] + s[FirstIndex(s, x) + 1..]
  {
    if s[0] == x then s[1..] else [s[0]] + RemoveFirst(s[1..], x)
  }

  /** Reference definition of the reordered list. */
  function MovedToFront(s: seq<string>, x: string): seq<string>
    requires x in s
  {
    [x] + RemoveFirst(s, x)
  }

  /**
   * The item is at the head, the length and the multiset of entries are kept,
   * and the other entries keep their relative order.
   */
  lemma MovedToFrontProperties(s: seq<string>, x: string)
    requires x in s
    ensures var r := MovedToFront(s, x);
            var i := FirstIndex(s, x);
            |r| == |s| && r[0] == x && multiset(r) == multiset(s) &&
            r[1..] == s[..i] + s[i + 1..]
  {
    var r := MovedToFront(s, x);
    var i := FirstIndex(s, x);
    assert s == s[..i] + [x] + s[i + 1..];
    assert r == [x] + (s[..i] + s[i + 1..]);
    calc {
      multiset(s);
      multiset(s[..i] + [x] + s[i + 1..]);
      multiset(s[..i]) + multiset{x} + multiset(s[i + 1..]);
      multiset([x] + (s[..i] + s[i + 1..]));
    }
  }

  /** Moving the head entry to the front again changes nothing. */
  lemma MovedToFrontIdempotent(s: seq<string>, x: string)
    requires x in s
    ensures x in MovedToFront(s, x)
    ensures MovedToFront(MovedToFront(s, x), x) == MovedToFront(s, x)
  {
    var r := MovedToFront(s, x);
    assert r[0] == x;
    assert FirstIndex(r, x) == 0;
  }

  /** A dropdown list, updated in place. */
  class OptionList {
    var items: seq<string>

    constructor (items: seq<string>)
      ensures this.items == items
    {
      this.items := items;
    }

    /** `lst.remove(x)`; `ok` is false where Python raises ValueError, and then nothing changes. */
    method Remove(x: string) returns (ok: bool)
      modifies this
      ensures ok == (x in old(items))
      ensures items == if ok then RemoveFirst(old(items), x) else old(items)
    {
      ok := x in items;
      if ok {
        var i := FirstIndex(items, x);
        items := items[..i] + items[i + 1..];
      }
    }

    /** `lst.insert(index, x)`; an index past the end appends, as Python does. */
    method Insert(index: nat, x: string)
      modifies this
      ensures var k := if index <= |old(items)| then index else |old(items)|;
              items == old(items)[..k] + [x] + old(items)[k..]
    {
      var k := if index <= |items| then index else |items|;
      items := items[..k] + [x] + items[k..];
    }

    /**
     * `move_to_front(lst, item)`: on success the same list object is returned,
     * reordered; when `item` is absent the ValueError leaves the list as it was.
     */
    method MoveToFront(item: string) returns (r: Option<OptionList>)
      modifies this
      ensures r == if item in old(items) then Some(this) else None
      ensures items == if item in old(items) then MovedToFront(old(items), item) else old(items)
    {
      var ok := Remove(item);
      if !ok {
        return None;
      }
      Insert(0, item);
      r := Some(this);
    }
  }
}

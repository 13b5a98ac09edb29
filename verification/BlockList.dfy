/** sblist: a dynamic array of equally long items in one block of bytes, and Socks5Server::collect. */
module BlockList {
  import opened Wire

  type Item = seq<Byte>

  const PAGE_SIZE := 4096

  function Flat(items: seq<Item>): seq<Byte> {
    if items == [] then [] else items[0] + Flat(items[1..])
  }

  ghost predicate Sized(items: seq<Item>, size: nat) {
    forall i :: 0 <= i < |items| ==> |items[i]| == size
  }

  lemma {:induction false} FlatAppend(a: seq<Item>, b: seq<Item>)
    ensures Flat(a + b) == Flat(a) + Flat(b)
  {
    if a == [] {
      assert a + b == b;
    } else {
      FlatAppend(a[1..], b);
      assert (a + b)[1..] == a[1..] + b && (a + b)[0] == a[0];
      assert a[0] + (Flat(a[1..]) + Flat(b)) == (a[0] + Flat(a[1..])) + Flat(b);
    }
  }

  /** sblist_item_from_index: the byte at which an item starts. */
  function Offset(index: nat, size: nat): nat {
    index * size
  }

  lemma OffsetNext(index: nat, size: nat)
    ensures Offset(index + 1, size) == Offset(index, size) + size
  {}

  lemma OffsetsApart(i: nat, j: nat, size: nat)
    requires i <= j
    ensures Offset(j, size) == Offset(i, size) + Offset(j - i, size)
  {}

  lemma {:induction false} FlatLength(items: seq<Item>, size: nat)
    requires Sized(items, size)
    ensures |Flat(items)| == Offset(|items|, size)
  {
    if items != [] {
      FlatLength(items[1..], size);
      OffsetNext(|items| - 1, size);
    }
  }

  /** Item i lies at its offset. */
  lemma FlatAt(items: seq<Item>, size: nat, i: nat)
    requires Sized(items, size) && i < |items|
    ensures Offset(i + 1, size) == Offset(i, size) + size <= |Flat(items)|
    ensures Flat(items)[Offset(i, size)..Offset(i + 1, size)] == items[i]
    ensures |Flat(items[..i])| == Offset(i, size)
    ensures Flat(items) == Flat(items[..i]) + items[i] + Flat(items[i + 1..])
  {
    var a, b := items[..i], items[i + 1..];
    assert items == a + ([items[i]] + b);
    FlatAppend(a, [items[i]] + b);
    assert ([items[i]] + b)[1..] == b && Flat([items[i]] + b) == items[i] + Flat(b);
    FlatLength(a, size);
    OffsetNext(i, size);
    hide Flat, Offset;
    assert Flat(items) == Flat(a) + (items[i] + Flat(b));
  }

  /** Overwriting the bytes of one item changes that item only. */
  lemma SetFlat(items: seq<Item>, size: nat, pos: nat, item: Item, bytes: seq<Byte>)
    requires Sized(items, size) && |item| == size && pos < |items| && Flat(items) <= bytes
    ensures Offset(pos, size) + size <= |bytes|
    ensures Flat(items[pos := item]) <= bytes[..Offset(pos, size)] + item + bytes[Offset(pos, size) + size..]
  {
    FlatAt(items, size, pos);
    FlatAt(items[pos := item], size, pos);
    hide Flat, Offset;
    assert items[pos := item][..pos] == items[..pos] && items[pos := item][pos + 1..] == items[pos + 1..];
    Overwrite(Flat(items[..pos]), items[pos], Flat(items[pos + 1..]), item, bytes);
  }

  lemma Overwrite(front: seq<Byte>, was: seq<Byte>, back: seq<Byte>, item: seq<Byte>, bytes: seq<Byte>)
    requires front + was + back <= bytes && |item| == |was|
    ensures |front| + |was| <= |bytes| && front + item + back <= bytes[..|front|] + item + bytes[|front| + |was|..]
  {}

  /** n bytes moved from src to dst, as memmove moves them. */
  function Moved(bytes: seq<Byte>, dst: nat, src: nat, n: nat): (r: seq<Byte>)
    requires dst <= src && src + n <= |bytes|
    ensures |r| == |bytes|
  {
    bytes[..dst] + bytes[src..src + n] + bytes[dst + n..]
  }

  /** Moving what is behind an item over it leaves the other items. */
  lemma CloseGap(items: seq<Item>, size: nat, pos: nat, bytes: seq<Byte>)
    requires Sized(items, size) && pos < |items| && Flat(items) <= bytes
    ensures var i, j, n := Offset(pos, size), Offset(pos + 1, size), Offset(|items| - (pos + 1), size);
      && i <= j && j + n <= |bytes|
      && Flat(items[..pos] + items[pos + 1..]) <= Moved(bytes, i, j, n)
  {
    hide Flat, Offset, Moved;
    FlatAt(items, size, pos);
    var before, gone, after := items[..pos], items[pos], items[pos + 1..];
    FlatLength(after, size);
    FlatAppend(before, after);
    var i, j, n := Offset(pos, size), Offset(pos + 1, size), Offset(|after|, size);
    Skip(Flat(before), gone, Flat(after), bytes, i, j, n);
    assert Flat(before + after) <= Moved(bytes, i, j, n);
    assert n == Offset(|items| - (pos + 1), size);
  }

  lemma Skip(front: seq<Byte>, gone: seq<Byte>, back: seq<Byte>, bytes: seq<Byte>, i: nat, j: nat, n: nat)
    requires front + gone + back <= bytes && i == |front| && j == i + |gone| && n == |back|
    ensures j + n <= |bytes| && front + back <= Moved(bytes, i, j, n)
  {}

  /** Whatever stands behind the last item reads as one more while there is room. */
  lemma OneMore(items: seq<Item>, size: nat, capa: nat, bytes: seq<Byte>) returns (junk: Item)
    requires Sized(items, size) && |items| < capa && Flat(items) <= bytes && |bytes| == Offset(capa, size)
    ensures |junk| == size && Flat(items + [junk]) <= bytes
  {
    FlatLength(items, size);
    OffsetNext(|items|, size);
    OffsetsApart(|items| + 1, capa, size);
    var i := Offset(|items|, size);
    junk := bytes[i..i + size];
    FlatAppend(items, [junk]);
    assert [junk][1..] == [] && Flat([junk]) == junk;
  }

  class SbList {
    const itemSize: nat
    const blockItems: nat
    var count: nat
    var capa: nat
    var items: array<Byte>
    /** The list the bytes stand for. */
    ghost var contents: seq<Item>

    ghost predicate Valid()
      reads this, items
    {
      && itemSize > 0 && blockItems > 0
      && count == |contents| && count <= capa
      && Sized(contents, itemSize)
      && items.Length == Offset(capa, itemSize)
      && Flat(contents) <= items[..]
    }

    /** sblist_init; a page's worth of items per block if the caller does not say. */
    constructor (itemSize: nat, blockItems: nat)
      requires itemSize > 0 && (blockItems > 0 || itemSize <= PAGE_SIZE)
      ensures Valid() && fresh(items) && contents == [] && this.itemSize == itemSize
      ensures blockItems > 0 ==> this.blockItems == blockItems
    {
      this.itemSize := itemSize;
      this.blockItems := if blockItems > 0 then blockItems else PAGE_SIZE / itemSize;
      count, capa, contents := 0, 0, [];
      items := new Byte[0](_ => 0);
    }

    /** The item itself instead of a pointer to it. */
    method Get(index: nat) returns (item: Option<Item>)
      requires Valid()
      ensures item == if index < |contents| then Some(contents[index]) else None
    {
      hide Offset, Flat;
      if index >= count { return None; }
      FlatAt(contents, itemSize, index);
      item := Some(items[Offset(index, itemSize)..Offset(index + 1, itemSize)]);
      assert item.value == Flat(contents)[Offset(index, itemSize)..Offset(index + 1, itemSize)];
    }

    method Set(item: Item, pos: nat) returns (ok: bool)
      requires Valid() && |item| == itemSize
      modifies items, this`contents
      ensures Valid() && ok == (pos < count)
      ensures contents == if ok then old(contents)[pos := item] else old(contents)
    {
      hide Offset, Flat;
      if pos >= count { return false; }
      ok := true;
      SetFlat(contents, itemSize, pos, item, items[..]);
      MemCpy(Offset(pos, itemSize), item);
      contents := contents[pos := item];
    }

    method MemCpy(at: nat, bytes: seq<Byte>)
      requires at + |bytes| <= items.Length
      modifies items
      ensures items[..] == old(items[..])[..at] + bytes + old(items[..])[at + |bytes|..]
    {
      ghost var was := items[..];
      for k := 0 to |bytes|
        invariant forall j :: 0 <= j < k ==> items[at + j] == bytes[j]
        invariant forall j :: 0 <= j < at || at + k <= j < items.Length ==> items[j] == was[j]
      {
        items[at + k] := bytes[k];
      }
      assert forall j :: 0 <= j < |bytes| ==> items[..][at + j] == bytes[j];
    }

    /** `granted` says whether realloc succeeds. */
    method GrowIfNeeded(granted: bool) returns (ok: bool)
      requires Valid()
      modifies this`capa, this`items
      ensures Valid() && ok == (old(count < capa) || granted) && (ok ==> count < capa)
      ensures items == old(items) || fresh(items)
    {
      hide Offset, Flat;
      ok := true;
      if count == capa {
        if !granted { return false; }
        OffsetsApart(capa, capa + blockItems, itemSize);
        var temp := new Byte[Offset(capa + blockItems, itemSize)](_ => 0);
        forall k | 0 <= k < items.Length {
          temp[k] := items[k];
        }
        assert temp[..items.Length] == items[..];
        capa := capa + blockItems;
        items := temp;
      }
    }

    method Add(item: Item, granted: bool) returns (ok: bool)
      requires Valid() && |item| == itemSize
      modifies this, items
      ensures Valid() && ok == (old(count < capa) || granted)
      ensures contents == if ok then old(contents) + [item] else old(contents)
      ensures items == old(items) || fresh(items)
    {
      hide Offset, Flat;
      ok := GrowIfNeeded(granted);
      if !ok { return false; }
      ghost var before := contents;
      ghost var junk := OneMore(contents, itemSize, capa, items[..]);
      contents := contents + [junk];
      count := count + 1;
      ok := Set(item, count - 1);
      assert contents == before + [item];
    }

    /** Removes an item by moving everything behind it; out of range it does nothing. */
    method Delete(index: nat)
      requires Valid()
      modifies this`count, this`contents, items
      ensures Valid()
      ensures contents == if index < |old(contents)| then old(contents)[..index] + old(contents)[index + 1..]
                          else old(contents)
    {
      hide Offset, Flat, Moved;
      if count > 0 && index < count {
        CloseGap(contents, itemSize, index, items[..]);
        MemMove(Offset(index, itemSize), Offset(index + 1, itemSize), Offset(count - (index + 1), itemSize));
        contents := contents[..index] + contents[index + 1..];
        count := count - 1;
      }
    }

    /** memmove towards the front. */
    method MemMove(dst: nat, src: nat, n: nat)
      requires dst <= src && src + n <= items.Length
      modifies items
      ensures items[..] == Moved(old(items[..]), dst, src, n)
    {
      ghost var was := items[..];
      ghost var moved := was[src..src + n];
      for k := 0 to n
        invariant forall j :: 0 <= j < k ==> items[dst + j] == moved[j]
        invariant forall j :: 0 <= j < dst || dst + k <= j < items.Length ==> items[j] == was[j]
      {
        items[dst + k] := items[src + k];
      }
      assert forall j :: 0 <= j < n ==> items[..][dst + j] == moved[j];
    }
  }

  /** The items whose `done` flag was not set when it was looked at; the k-th item is looked at k-th. */
  function Unfinished(items: seq<Item>, done: nat -> bool, k: nat): seq<Item> {
    if items == [] then [] else (if done(k) then [] else [items[0]]) + Unfinished(items[1..], done, k + 1)
  }

  function Finished(items: seq<Item>, done: nat -> bool, k: nat): seq<Item> {
    if items == [] then [] else (if done(k) then [items[0]] else []) + Finished(items[1..], done, k + 1)
  }

  /** One thread looked at. */
  lemma Looked(kept: seq<Item>, joined: seq<Item>, todo: seq<Item>, done: nat -> bool, k: nat)
    requires todo != []
    ensures kept + Unfinished(todo, done, k)
            == (if done(k) then kept else kept + [todo[0]]) + Unfinished(todo[1..], done, k + 1)
    ensures joined + Finished(todo, done, k)
            == (if done(k) then joined + [todo[0]] else joined) + Finished(todo[1..], done, k + 1)
  {}

  lemma LookedAt(kept: seq<Item>, todo: seq<Item>)
    requires todo != []
    ensures var all, i := kept + todo, |kept|;
      && all[i] == todo[0]
      && all[..i] + all[i + 1..] == kept + todo[1..]
      && all == kept + [todo[0]] + todo[1..]
  {}

  /** collect: joins and drops the finished threads, each looked at once, and keeps the others in order. */
  method Collect(threads: SbList, done: nat -> bool) returns (joined: seq<Item>)
    requires threads.Valid()
    modifies threads`count, threads`contents, threads.items
    ensures threads.Valid()
    ensures threads.contents == Unfinished(old(threads.contents), done, 0)
    ensures joined == Finished(old(threads.contents), done, 0)
  {
    var i := 0;
    var k := 0;
    joined := [];
    ghost var all, kept, todo: seq<Item> := threads.contents, [], threads.contents;
    while i < threads.count
      invariant threads.Valid() && |kept| == i
      invariant threads.contents == kept + todo
      invariant kept + Unfinished(todo, done, k) == Unfinished(all, done, 0)
      invariant joined + Finished(todo, done, k) == Finished(all, done, 0)
      decreases |todo|
    {
      hide Flat, Unfinished, Finished;
      var thread := threads.Get(i);
      Looked(kept, joined, todo, done, k);
      LookedAt(kept, todo);
      var finished := done(k);
      if finished {
        joined := joined + [thread.value];
        threads.Delete(i);
      } else {
        kept := kept + [thread.value];
        i := i + 1;
      }
      todo := todo[1..];
      k := k + 1;
    }
    assert todo == [];
  }

  /** How many of the n threads from the k-th on are done, or are not. */
  function Before(done: nat -> bool, k: nat, n: nat, finished: bool): nat
    decreases n
  {
    if n == 0 then 0 else (if done(k) == finished then 1 else 0) + Before(done, k + 1, n - 1, finished)
  }

  lemma {:induction false} HowMany(items: seq<Item>, done: nat -> bool, k: nat)
    ensures |Unfinished(items, done, k)| == Before(done, k, |items|, false)
    ensures |Finished(items, done, k)| == Before(done, k, |items|, true)
  {
    if items != [] {
      HowMany(items[1..], done, k + 1);
    }
  }

  /** With these, a thread is joined exactly if it is done and kept otherwise, behind those of its kind before it. */
  lemma {:induction false} JoinedIfDone(items: seq<Item>, done: nat -> bool, k: nat, i: nat)
    requires i < |items| && done(k + i)
    ensures var place := Before(done, k, i, true);
      place < |Finished(items, done, k)| && Finished(items, done, k)[place] == items[i]
  {
    if i > 0 {
      assert k + 1 + (i - 1) == k + i;
      JoinedIfDone(items[1..], done, k + 1, i - 1);
    }
  }

  lemma {:induction false} KeptUnlessDone(items: seq<Item>, done: nat -> bool, k: nat, i: nat)
    requires i < |items| && !done(k + i)
    ensures var place := Before(done, k, i, false);
      place < |Unfinished(items, done, k)| && Unfinished(items, done, k)[place] == items[i]
  {
    if i > 0 {
      assert k + 1 + (i - 1) == k + i;
      KeptUnlessDone(items[1..], done, k + 1, i - 1);
    }
  }

  /** Nothing is lost: kept and joined threads together are the threads there were. */
  lemma {:induction false} NothingLost(items: seq<Item>, done: nat -> bool, k: nat)
    ensures multiset(Unfinished(items, done, k)) + multiset(Finished(items, done, k)) == multiset(items)
  {
    if items != [] {
      NothingLost(items[1..], done, k + 1);
      assert items == [items[0]] + items[1..];
    }
  }
}

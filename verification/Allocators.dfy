/** Message allocators: the link-section list, the runtime table, and how the allocator id in a
    message's header finds the way back to the allocator the message came from. */
module Allocators {
  import opened Types
  import opened Header

  const LINK_SECTION_MAX_ID := 0x7F
  const RUNTIME_OFFSET := 0x80
  const ID_LINK_SECTION := 0xFC
  const ID_CALLBACK_MSG := 0xFD
  const ID_STATIC_MSG := 0xFE
  const ID_INVALID := 0xFF

  type Byte = b: nat | b < 256

  type Block = nat

  /** An allocator object: the i-th of the link section, or one defined by the application. */
  datatype Allocator = Link(i: nat) | App(name: nat)

  /** The 8-bit id the n-th runtime allocator gets. */
  function RuntimeId(n: nat): Byte {
    (n + RUNTIME_OFFSET) % 256
  }

  ghost predicate Ordinary(id: Byte) {
    RUNTIME_OFFSET <= id < ID_LINK_SECTION
  }

  /** The runtime ids are distinct, and distinct from the link-section and the special ids, exactly
      when there are at most 124 of them. */
  lemma RuntimeIdsFitIff(num: nat)
    ensures (forall n :: 0 <= n < num ==> Ordinary(RuntimeId(n))) <==> num <= 124
    ensures num <= 124 ==> forall n, k :: 0 <= n < k < num ==> RuntimeId(n) != RuntimeId(k)
  {
    if num > 124 { assert !Ordinary(RuntimeId(124)); }
  }

  datatype Outcome = StillOwned | Freed(a: Allocator) | CallbackCalled | NothingToFree

  class Allocation {
    const linkCount: nat                          // allocators in the link section
    const maxRuntime: nat                         // CONFIG_PUB_SUB_RUNTIME_ALLOCATORS_MAX_NUM
    const pool: map<Allocator, set<Block>>        // the blocks of each allocator's slab
    var runtime: seq<Allocator>                   // g_runtime_allocators
    var ids: map<Allocator, Byte>                 // the allocator_id field of each allocator
    var free: map<Allocator, set<Block>>          // the free list of each allocator's slab
    var words: map<Block, bv32>                   // the header of each message
    ghost var home: map<Block, Allocator>         // the allocator each allocated block came from
    ghost var special: map<Block, Byte>           // static and callback messages

    ghost predicate Known(a: Allocator)
      reads this
    {
      match a
      case Link(i) => i < linkCount
      case App(_) => a in runtime
    }

    /** The allocator the release code goes to for an allocator id. */
    function Route(id: Byte): Option<Allocator>
      reads this`runtime
    {
      if id <= LINK_SECTION_MAX_ID then (if id < linkCount then Some(Link(id)) else None)
      else if id - RUNTIME_OFFSET < |runtime| then Some(runtime[id - RUNTIME_OFFSET])
      else None
    }

    ghost predicate IdsValid()
      reads this`runtime, this`ids
    {
      && linkCount <= LINK_SECTION_MAX_ID + 1 && |runtime| <= maxRuntime <= 124
      && (forall i :: 0 <= i < linkCount ==> Link(i) in ids && ids[Link(i)] == ID_LINK_SECTION)
      && (forall i :: 0 <= i < |runtime| ==> runtime[i].App? && runtime[i] in ids)
      && (forall a :: a in ids && a.App? ==>
            if a in runtime then Ordinary(ids[a]) && Route(ids[a]) == Some(a) else ids[a] == ID_INVALID)
    }

    ghost predicate HeaderValid(m: Block)
      requires m in home || m in special
      reads this`words, this`home, this`special, this`runtime
    {
      && m in words && 0 <= Decode(words[m]).alloc < 256
      && (m in home ==> Decode(words[m]).refCnt > 0 && Route(Decode(words[m]).alloc) == Some(home[m]))
      && (m in special ==> Decode(words[m]).alloc == special[m] && special[m] in {ID_STATIC_MSG, ID_CALLBACK_MSG})
    }

    /** Free and allocated blocks of each slab make up its pool. */
    ghost predicate SlabValid(a: Allocator)
      reads this`free, this`home
    {
      && a in pool && a in free && free[a] <= pool[a]
      && (forall b :: b in pool[a] ==> (b in free[a] <==> b !in home))
    }

    ghost predicate SlabsValid()
      reads this`free, this`home, this`special
    {
      && free.Keys == pool.Keys
      && (forall a :: a in pool ==> SlabValid(a))
      && (forall a, b :: a in pool && b in pool && a != b ==> pool[a] !! pool[b])
      && (forall m :: m in home ==> home[m] in pool && m in pool[home[m]])
      && (forall m, a :: m in special && a in pool ==> m !in pool[a])
    }

    ghost predicate HeadersValid()
      reads this`words, this`home, this`special, this`runtime
    {
      forall m :: m in home || m in special ==> HeaderValid(m)
    }

    ghost predicate Valid()
      reads this
    {
      IdsValid() && SlabsValid() && HeadersValid() && pool.Keys == ids.Keys
    }

    /** Nothing allocated yet, no runtime allocator added yet. */
    constructor (linkCount: nat, maxRuntime: nat, pool: map<Allocator, set<Block>>)
      requires linkCount <= LINK_SECTION_MAX_ID + 1 && maxRuntime <= 124
      requires forall i :: 0 <= i < linkCount ==> Link(i) in pool
      requires forall a, b :: a in pool && b in pool && a != b ==> pool[a] !! pool[b]
      ensures Valid() && runtime == [] && home == map[] && special == map[]
      ensures this.linkCount == linkCount && this.maxRuntime == maxRuntime && this.pool == pool && free == pool
    {
      this.linkCount, this.maxRuntime, this.pool := linkCount, maxRuntime, pool;
      runtime, free, words, home, special := [], pool, map[], map[], map[];
      ids := map a | a in pool :: if a.Link? then ID_LINK_SECTION else ID_INVALID;
    }

    /** A static message, or a callback message: memory of no slab, and an id of its own. */
    method InitSpecial(m: Block, id: bv16, kind: Byte)
      requires Valid() && kind in {ID_STATIC_MSG, ID_CALLBACK_MSG}
      requires m !in special && forall a :: a in pool ==> m !in pool[a]
      modifies this`words, this`special
      ensures Valid() && special == old(special)[m := kind]
      ensures words.Keys == old(words).Keys + {m} && Decode(words[m]) == Fields(id as int, kind, 0)
      ensures forall k :: k in old(words) && k != m ==> words[k] == old(words)[k]
    {
      hide Decode, InitialWord, SlabsValid;
      MarkSpecial(m, kind);
      words := words[m := InitialWord(id, kind)];
      forall x | x in home || x in special ensures HeaderValid(x) {
        assert x != m ==> old(HeaderValid(x));
      }
      hide HeaderValid, IdsValid;
    }

    /** Memory outside every pool is used for a message. */
    ghost method MarkSpecial(m: Block, kind: Byte)
      requires SlabsValid() && forall a :: a in pool ==> m !in pool[a]
      modifies this`special
      ensures SlabsValid() && special == old(special)[m := kind] && m !in home
    {
      special := special[m := kind];
      forall a | a in pool ensures SlabValid(a) { assert old(SlabValid(a)); }
      hide SlabValid;
    }

    /** Free and allocated blocks add up to the pool, slab by slab. */
    lemma SlabConserved(a: Allocator)
      requires Valid() && a in pool
      ensures var used := set m | m in home && home[m] == a;
              free[a] !! used && pool[a] == free[a] + used && |pool[a]| == |free[a]| + |used|
    {
      var used := set m | m in home && home[m] == a;
      assert SlabValid(a);
      forall b | b in pool[a] && b in home ensures home[b] == a {
        assert b in pool[home[b]];
      }
      assert pool[a] == free[a] + used;
    }

    /** pub_sub_add_runtime_allocator: ids already given keep their meaning. */
    method AddRuntimeAllocator(a: Allocator) returns (ok: bool)
      requires Valid() && a.App? && a in pool
      modifies this`runtime, this`ids
      ensures Valid()
      ensures ok <==> old(|runtime|) < maxRuntime
      ensures ok ==> runtime == old(runtime) + [a] && Route(ids[a]) == Some(a)
      ensures ok ==> ids == old(ids)[a := RuntimeId(old(|runtime|))]
      ensures !ok ==> runtime == old(runtime) && ids == old(ids)
      ensures forall id: Byte :: old(Route(id)).Some? ==> Route(id) == old(Route(id))
    {
      hide Decode, SlabsValid, SlabValid;
      ok := false;
      if |runtime| < maxRuntime {
        ids := ids[a := RuntimeId(|runtime|)];
        runtime := runtime + [a];
        ok := true;
      }
    }

    /** The id a message from `a` carries: its own, or its place in the link section. */
    function IdFor(a: Allocator): (id: Byte)
      requires a in ids && (a.Link? ==> a.i <= LINK_SECTION_MAX_ID)
      reads this`ids
    {
      if ids[a] == ID_LINK_SECTION && a.Link? then a.i else ids[a]
    }

    /** pub_sub_new_msg: a block from the slab of `a`, with one reference. */
    method NewMsg(a: Allocator, id: bv16) returns (m: Option<Block>)
      requires Valid() && Known(a) && a in pool
      modifies this`free, this`words, this`home
      ensures Valid()
      ensures m.None? <==> old(free)[a] == {}
      ensures m.None? ==> free == old(free) && words == old(words) && home == old(home)
      ensures m.Some? ==>
                && m.value in old(free)[a]
                && free == old(free)[a := old(free)[a] - {m.value}]
                && home == old(home)[m.value := a]
                && (forall k :: k in old(words) && k != m.value ==> k in words && words[k] == old(words)[k])
                && m.value in words && Decode(words[m.value]) == Fields(id as int, IdFor(a), 1)
    {
      hide Decode, SlabsValid, IdsValid;
      m := AllocateFromSlab(a);
      if m.Some? {
        forall x | (x in home || x in special) && x != m.value ensures HeaderValid(x) {
          assert old(HeaderValid(x));
        }
        hide HeaderValid;
        InitMsg(a, id, m.value);
      }
    }

    /** Write the header of a new block, with one reference. */
    method InitMsg(a: Allocator, id: bv16, m: Block)
      requires IdsValid() && Known(a) && a in ids && m in home && home[m] == a && m !in special
      requires forall x :: (x in home || x in special) && x != m ==> HeaderValid(x)
      modifies this`words
      ensures HeadersValid()
      ensures words == old(words)[m := NewWord(id, IdFor(a))] && Decode(words[m]) == Fields(id as int, IdFor(a), 1)
    {
      hide Decode, NewWord;
      assert Route(IdFor(a)) == Some(a);
      hide IdsValid, IdFor;
      words := words[m := NewWord(id, IdFor(a))];
      forall x | x in home || x in special ensures HeaderValid(x) {
        if x != m { assert old(HeaderValid(x)); }
      }
    }

    /** pub_sub_allocate_from_mem_slab: any free block. */
    method AllocateFromSlab(a: Allocator) returns (m: Option<Block>)
      requires SlabsValid() && a in pool
      modifies this`free, this`home
      ensures SlabsValid()
      ensures m.None? <==> old(free)[a] == {}
      ensures m.None? ==> free == old(free) && home == old(home)
      ensures m.Some? ==>
                && m.value in old(free)[a] && m.value !in old(home) && m.value !in special
                && free == old(free)[a := old(free)[a] - {m.value}]
                && home == old(home)[m.value := a]
    {
      if free[a] == {} {
        return None;
      }
      var b :| b in free[a];
      assert SlabValid(a);
      free := free[a := free[a] - {b}];
      home := home[b := a];
      m := Some(b);
      forall x | x in pool ensures SlabValid(x) { assert x != a ==> b !in pool[x]; }
    }

    /** pub_sub_free_for_mem_slab: back to the slab it came from. */
    method FreeForSlab(a: Allocator, m: Block)
      requires SlabsValid() && m in home && home[m] == a
      modifies this`free, this`home
      ensures SlabsValid() && free == old(free)[a := old(free)[a] + {m}] && home == old(home) - {m}
    {
      free := free[a := free[a] + {m}];
      home := home - {m};
      forall x | x in pool ensures SlabValid(x) { assert x != a ==> m !in pool[x]; }
    }

    /** pub_sub_acquire_msg. */
    method AcquireMsg(m: Block)
      requires Valid() && (m in home || m in special) && Decode(words[m]).refCnt < 255
      modifies this`words
      ensures Valid()
      ensures m in words && words == old(words)[m := words[m]]
      ensures var before := Decode(old(words)[m]); Decode(words[m]) == before.(refCnt := before.refCnt + 1)
    {
      hide Decode, Acquired, SlabsValid;
      words := words[m := Acquired(words[m])];
    }

    /** pub_sub_release_msg: the last release gives the block back to the allocator it came from, to
        no other; the last release of a callback message calls its callback. */
    method ReleaseMsg(m: Block) returns (outcome: Outcome)
      requires Valid() && (m in home || m in special) && Decode(words[m]).refCnt > 0
      modifies this`words, this`free, this`home
      ensures Valid()
      ensures m in words && words == old(words)[m := words[m]]
      ensures var before := Decode(old(words)[m]); Decode(words[m]) == before.(refCnt := before.refCnt - 1)
      ensures Decode(old(words)[m]).refCnt > 1 ==> outcome == StillOwned && free == old(free) && home == old(home)
      ensures Decode(old(words)[m]).refCnt == 1 ==>
                if m in old(home) then
                  && outcome == Freed(old(home)[m])
                  && free == old(free)[old(home)[m] := old(free)[old(home)[m]] + {m}]
                  && home == old(home) - {m}
                else
                  && outcome == (if special[m] == ID_CALLBACK_MSG then CallbackCalled else NothingToFree)
                  && free == old(free) && home == old(home)
    {
      hide Decode, Released, SlabsValid, IdsValid;
      assert HeaderValid(m);
      var prev := Decode(words[m]).refCnt;
      words := words[m := Released(words[m])];
      outcome := StillOwned;
      if prev == 1 {
        outcome := FreeMsg(m, Decode(words[m]).alloc);
      }
      forall x | x in home || x in special ensures HeaderValid(x) {
        if x != m { assert old(HeaderValid(x)); }
      }
      hide HeaderValid;
    }

    /** The last release: the allocator id says whom the message goes back to. */
    method FreeMsg(m: Block, id: Byte) returns (outcome: Outcome)
      requires SlabsValid() && IdsValid() && (m in home || m in special)
      requires m in home ==> Route(id) == Some(home[m])
      requires m in special ==> id == special[m] && special[m] in {ID_STATIC_MSG, ID_CALLBACK_MSG}
      modifies this`free, this`home
      ensures SlabsValid()
      ensures if m in old(home) then
                && outcome == Freed(old(home)[m])
                && free == old(free)[old(home)[m] := old(free)[old(home)[m]] + {m}]
                && home == old(home) - {m}
              else
                && outcome == (if special[m] == ID_CALLBACK_MSG then CallbackCalled else NothingToFree)
                && free == old(free) && home == old(home)
    {
      hide SlabsValid;
      outcome := NothingToFree;
      var a := Route(id);
      if a.Some? {
        FreeForSlab(a.value, m);
        outcome := Freed(a.value);
      } else if id == ID_CALLBACK_MSG {
        outcome := CallbackCalled;
      }
    }
  }
}

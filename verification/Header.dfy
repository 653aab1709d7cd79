/** The packed header word of a message: 16-bit message id, 8-bit allocator id, 8-bit reference count. */
module Header {

  /** PUB_SUB_MSG_ATOMIC_DATA_INIT: the count starts at 0. */
  function Pack(id: bv16, alloc: bv8): bv32 {
    (((id as bv32) << 16) & 0xFFFF_0000) | (((alloc as bv32) << 8) & 0x0000_FF00) | (0 & 0x0000_00FF)
  }

  function MsgId(w: bv32): bv16 {
    ((w & 0xFFFF_0000) >> 16) as bv16
  }

  function AllocId(w: bv32): bv8 {
    ((w & 0x0000_FF00) >> 8) as bv8
  }

  function RefCnt(w: bv32): bv8 {
    (w & 0x0000_00FF) as bv8
  }

  /** Unpacking gives back what was packed, and a count of 0. */
  lemma PackUnpack(id: bv16, alloc: bv8)
    ensures MsgId(Pack(id, alloc)) == id && AllocId(Pack(id, alloc)) == alloc
    ensures RefCnt(Pack(id, alloc)) == 0
  {
  }

  /** An increment of the whole word leaves the two ids alone exactly when the count is not 255. */
  lemma IncKeepsIdsIff(w: bv32)
    ensures MsgId(w + 1) == MsgId(w) && AllocId(w + 1) == AllocId(w) <==> RefCnt(w) != 0xFF
    ensures RefCnt(w + 1) == RefCnt(w) + 1
  {
  }

  /** A decrement of the whole word leaves the two ids alone exactly when the count is not 0. */
  lemma DecKeepsIdsIff(w: bv32)
    ensures MsgId(w - 1) == MsgId(w) && AllocId(w - 1) == AllocId(w) <==> RefCnt(w) != 0
    ensures RefCnt(w - 1) == RefCnt(w) - 1
  {
  }

  lemma CountUp(b: bv8)
    requires b != 0xFF
    ensures (b + 1) as int == b as int + 1
  {
  }

  lemma CountDown(b: bv8)
    requires b != 0
    ensures (b - 1) as int == b as int - 1
  {
  }

  /** The word with the count moved as intended and nothing else changed. */
  lemma IncWord(w: bv32)
    requires RefCnt(w) as int < 255
    ensures MsgId(w + 1) == MsgId(w) && AllocId(w + 1) == AllocId(w)
    ensures RefCnt(w + 1) as int == RefCnt(w) as int + 1
  {
    IncKeepsIdsIff(w);
    CountUp(RefCnt(w));
  }

  lemma DecWord(w: bv32)
    requires RefCnt(w) as int > 0
    ensures MsgId(w - 1) == MsgId(w) && AllocId(w - 1) == AllocId(w)
    ensures RefCnt(w - 1) as int == RefCnt(w) as int - 1
  {
    DecKeepsIdsIff(w);
    CountDown(RefCnt(w));
  }

  // ----- runs -----

  datatype Op = Inc | Dec

  function Change(ops: seq<Op>): int {
    if ops == [] then 0 else Change(ops[..|ops| - 1]) + if ops[|ops| - 1].Inc? then 1 else -1
  }

  function Apply<W>(w: W, up: W -> W, down: W -> W, ops: seq<Op>): W {
    if ops == [] then w
    else
      var w' := Apply(w, up, down, ops[..|ops| - 1]);
      if ops[|ops| - 1].Inc? then up(w') else down(w')
  }

  /** The word after atomic increments and decrements. */
  function ApplyOps(w: bv32, ops: seq<Op>): bv32 {
    Apply(w, (x: bv32) => x + 1, (x: bv32) => x - 1, ops)
  }

  /** No operation fails the overflow or underflow assertion, counting from `start`. */
  ghost predicate InBounds(start: int, ops: seq<Op>) {
    forall k :: 0 <= k <= |ops| ==> 0 <= start + Change(ops[..k]) <= 255
  }

  /** A word decoded. */
  datatype Fields = Fields(id: int, alloc: int, refCnt: int)

  function Decode(w: bv32): Fields {
    Fields(MsgId(w) as int, AllocId(w) as int, RefCnt(w) as int)
  }

  /** The 8-bit word of value b. */
  function ToByte(b: nat): (r: bv8)
    requires b < 256
    ensures r as int == b
  {
    if b == 0 then 0
    else
      var r := ToByte(b - 1);
      CountUp(r);
      r + 1
  }

  /** The header of a message just initialised. */
  function InitialWord(id: bv16, alloc: nat): (w: bv32)
    requires alloc < 256
    ensures Decode(w) == Fields(id as int, alloc, 0)
  {
    PackUnpack(id, ToByte(alloc));
    Pack(id, ToByte(alloc))
  }

  /** The header of a message just allocated: initialised, then acquired once. */
  function NewWord(id: bv16, alloc: nat): (w: bv32)
    requires alloc < 256
    ensures Decode(w) == Fields(id as int, alloc, 1)
  {
    PackUnpack(id, ToByte(alloc));
    IncWord(Pack(id, ToByte(alloc)));
    Pack(id, ToByte(alloc)) + 1
  }

  /** One reference more. */
  function Acquired(w: bv32): (r: bv32)
    requires Decode(w).refCnt < 255
    ensures Decode(r) == Decode(w).(refCnt := Decode(w).refCnt + 1)
  {
    IncWord(w);
    w + 1
  }

  /** One reference less. */
  function Released(w: bv32): (r: bv32)
    requires Decode(w).refCnt > 0
    ensures Decode(r) == Decode(w).(refCnt := Decode(w).refCnt - 1)
  {
    DecWord(w);
    w - 1
  }

  /** Below 255 `up` adds one to the count, above 0 `down` takes one off, and nothing else changes. */
  ghost predicate Counts<W(!new)>(decode: W -> Fields, up: W -> W, down: W -> W) {
    && (forall w {:trigger up(w)} :: decode(w).refCnt < 255 ==>
          decode(up(w)) == decode(w).(refCnt := decode(w).refCnt + 1))
    && (forall w {:trigger down(w)} :: decode(w).refCnt > 0 ==>
          decode(down(w)) == decode(w).(refCnt := decode(w).refCnt - 1))
  }

  lemma {:induction false} CountsOverRuns<W(!new)>(decode: W -> Fields, up: W -> W, down: W -> W, w: W,
                                                   ops: seq<Op>)
    requires Counts(decode, up, down) && InBounds(decode(w).refCnt, ops)
    ensures decode(Apply(w, up, down, ops)) == decode(w).(refCnt := decode(w).refCnt + Change(ops))
  {
    if ops != [] {
      var last := |ops| - 1;
      forall k | 0 <= k <= last ensures ops[..last][..k] == ops[..k] {}
      CountsOverRuns(decode, up, down, w, ops[..last]);
      assert ops[..|ops|] == ops;
      var start := decode(w).refCnt;
      assert 0 <= start + Change(ops[..last]) <= 255 && 0 <= start + Change(ops[..|ops|]) <= 255;
    }
  }

  /** After any increments and decrements within bounds the word still decodes to the ids it was
      initialised with, and its count to the increments minus the decrements. */
  lemma RunDecodes(id: bv16, alloc: bv8, ops: seq<Op>)
    requires InBounds(0, ops)
    ensures Decode(ApplyOps(Pack(id, alloc), ops)) == Fields(id as int, alloc as int, Change(ops))
  {
    PackUnpack(id, alloc);
    forall w: bv32 | Decode(w).refCnt < 255
      ensures Decode(w + 1) == Decode(w).(refCnt := Decode(w).refCnt + 1)
    {
      IncWord(w);
    }
    forall w: bv32 | Decode(w).refCnt > 0
      ensures Decode(w - 1) == Decode(w).(refCnt := Decode(w).refCnt - 1)
    {
      DecWord(w);
    }
    CountsOverRuns(Decode, (x: bv32) => x + 1, (x: bv32) => x - 1, Pack(id, alloc), ops);
  }
}

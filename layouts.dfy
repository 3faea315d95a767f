/** The fixed-size `construct` layouts of layouts.py: a layout is the ordered list of its named fields,
    and building or parsing a record walks that list. */
module Layouts {
  import opened Wrappers
  import opened Bytes

  /** The field types the layouts use. */
  datatype Kind =
    | UInt(width: nat)  // Int8ul (1 byte), Int64ul (8), BytesInteger(16, signed=False, swapped=True) (16)
    | Raw(size: nat)    // Bytes(n)

  datatype Field = Field(name: string, kind: Kind)

  type Layout = seq<Field>

  /** A field value as the build dict supplies it and as parsing returns it. */
  datatype Value = Int(n: int) | Blob(bytes: seq<Byte>)

  datatype Error =
    | IntegerOutOfRange(field: string)  // an integer field given a value outside [0, 256^width)
    | WrongLength(field: string)        // a Bytes(n) field given a byte string of another length
    | WrongType(field: string)          // an integer field given bytes, or the reverse
    | MissingField(field: string)       // the build dict has no entry for the field
    | StreamTooShort(field: string)     // parsing ran out of input inside the field

  function KindSize(k: Kind): nat {
    match k
    case UInt(w) => w
    case Raw(n) => n
  }

  /** The number of bytes a record of the layout occupies. */
  function Size(layout: Layout): nat {
    if layout == [] then 0 else KindSize(layout[0].kind) + Size(layout[1..])
  }

  /** The byte offset at which field i starts. */
  function Offset(layout: Layout, i: nat): nat
    requires i <= |layout|
  {
    Size(layout[..i])
  }

  /** Whether a value can be stored in a field. */
  predicate Fits(f: Field, v: Value) {
    match f.kind
    case UInt(w) => v.Int? && 0 <= v.n < Pow256(w)
    case Raw(n) => v.Blob? && |v.bytes| == n
  }

  predicate AllFit(layout: Layout, values: seq<Value>) {
    |values| >= |layout| && forall i :: 0 <= i < |layout| ==> Fits(layout[i], values[i])
  }

  /** Building one field: out-of-range integers and wrongly sized byte strings are rejected, never truncated. */
  function BuildField(f: Field, v: Value): (r: Result<seq<Byte>, Error>)
    ensures r.Ok? <==> Fits(f, v)
    ensures r.Ok? ==> |r.value| == KindSize(f.kind)
    ensures r.Ok? && f.kind.UInt? ==> r.value == LittleEndian(v.n, f.kind.width)
    ensures r.Ok? && f.kind.Raw? ==> r.value == v.bytes
  {
    match f.kind
    case UInt(w) =>
      if !v.Int? then Err(WrongType(f.name))
      else if v.n < 0 || v.n >= Pow256(w) then Err(IntegerOutOfRange(f.name))
      else Ok(LittleEndian(v.n, w))
    case Raw(n) =>
      if !v.Blob? then Err(WrongType(f.name))
      else if |v.bytes| != n then Err(WrongLength(f.name))
      else Ok(v.bytes)
  }

  function ParseField(f: Field, bs: seq<Byte>): (v: Value)
    requires |bs| == KindSize(f.kind)
    ensures Fits(f, v)
  {
    match f.kind
    case UInt(_) => Int(FromLittleEndian(bs))
    case Raw(_) => Blob(bs)
  }

  /** Struct.build: the fields' encodings concatenated in declaration order. Values are matched to
      fields by position; values beyond the last field are ignored, as extra dict entries are. */
  function Build(layout: Layout, values: seq<Value>): (r: Result<seq<Byte>, Error>)
    ensures r.Ok? <==> AllFit(layout, values)
    ensures r.Ok? ==> |r.value| == Size(layout)
  {
    if layout == [] then Ok([])
    else if values == [] then Err(MissingField(layout[0].name))
    else
      var head := BuildField(layout[0], values[0]);
      var tail := Build(layout[1..], values[1..]);
      assert AllFit(layout, values) <==> Fits(layout[0], values[0]) && AllFit(layout[1..], values[1..]) by {
        if Fits(layout[0], values[0]) && AllFit(layout[1..], values[1..]) {
          forall i | 0 <= i < |layout| ensures Fits(layout[i], values[i]) {
            if i > 0 { assert layout[i] == layout[1..][i - 1] && values[i] == values[1..][i - 1]; }
          }
        }
        if AllFit(layout, values) {
          forall i | 0 <= i < |layout| - 1 ensures Fits(layout[1..][i], values[1..][i]) {
            assert Fits(layout[i + 1], values[i + 1]);
          }
        }
      }
      if head.Err? then Err(head.error)
      else if tail.Err? then Err(tail.error)
      else Ok(head.value + tail.value)
  }

  /** Struct.parse: each field read in order from the front of the input; trailing bytes are ignored. */
  function Parse(layout: Layout, bs: seq<Byte>): (r: Result<seq<Value>, Error>)
    ensures r.Ok? <==> |bs| >= Size(layout)
    ensures r.Ok? ==> |r.value| == |layout| && AllFit(layout, r.value)
  {
    if layout == [] then Ok([])
    else
      var w := KindSize(layout[0].kind);
      if |bs| < w then Err(StreamTooShort(layout[0].name))
      else
        var tail := Parse(layout[1..], bs[w..]);
        if tail.Err? then Err(tail.error)
        else
          var vs := [ParseField(layout[0], bs[..w])] + tail.value;
          assert forall i :: 1 <= i < |layout| ==> layout[i] == layout[1..][i - 1] && vs[i] == tail.value[i - 1];
          Ok(vs)
  }

  /** Parsing what was built, followed by any trailing bytes, gives back the values of the layout's fields. */
  lemma {:induction false} ParseBuild(layout: Layout, values: seq<Value>, rest: seq<Byte>)
    requires Build(layout, values).Ok?
    ensures Parse(layout, Build(layout, values).value + rest) == Ok(values[..|layout|])
  {
    if layout != [] {
      var f := layout[0];
      var head := BuildField(f, values[0]).value;
      var tail := Build(layout[1..], values[1..]).value;
      var bs := Build(layout, values).value + rest;
      assert bs == head + (tail + rest);
      assert bs[..|head|] == head && bs[|head|..] == tail + rest;
      ParseBuild(layout[1..], values[1..], rest);
      match f.kind {
        case UInt(w) => FromLittleEndianOfLittleEndian(values[0].n, w);
        case Raw(_) =>
      }
      assert ParseField(f, head) == values[0];
      assert values[..|layout|] == [values[0]] + values[1..][..|layout| - 1];
    }
  }

  /** Building what was parsed gives back the bytes the layout covers. */
  lemma {:induction false} BuildParse(layout: Layout, bs: seq<Byte>)
    requires Parse(layout, bs).Ok?
    ensures Build(layout, Parse(layout, bs).value) == Ok(bs[..Size(layout)])
  {
    if layout != [] {
      var f := layout[0];
      var w := KindSize(f.kind);
      var vs := Parse(layout, bs).value;
      var tailVs := Parse(layout[1..], bs[w..]).value;
      assert vs == [ParseField(f, bs[..w])] + tailVs;
      assert vs[0] == ParseField(f, bs[..w]) && vs[1..] == tailVs;
      BuildParse(layout[1..], bs[w..]);
      match f.kind {
        case UInt(_) => LittleEndianOfFromLittleEndian(bs[..w]);
        case Raw(_) =>
      }
      var head := BuildField(f, vs[0]);
      assert head == Ok(bs[..w]);
      var tail := Build(layout[1..], vs[1..]);
      assert tail == Ok(bs[w..][..Size(layout[1..])]);
      assert Build(layout, vs) == Ok(head.value + tail.value);
      assert bs[..Size(layout)] == bs[..w] + bs[w..][..Size(layout[1..])];
    }
  }

  lemma {:induction false} SizeOfPrefix(layout: Layout, i: nat)
    requires 0 < i <= |layout|
    ensures Size(layout[..i]) == KindSize(layout[0].kind) + Size(layout[1..][..i - 1])
  {
    assert layout[..i][1..] == layout[1..][..i - 1];
  }

  lemma {:induction false} SizeOfPrefixBound(layout: Layout, i: nat)
    requires i < |layout|
    ensures Offset(layout, i) + KindSize(layout[i].kind) <= Size(layout)
  {
    if i > 0 {
      SizeOfPrefix(layout, i);
      SizeOfPrefixBound(layout[1..], i - 1);
    }
  }

  /** A parsed record is its first field read from the front, then the rest of the record. */
  lemma ParseHead(layout: Layout, bs: seq<Byte>)
    requires Parse(layout, bs).Ok? && layout != []
    ensures KindSize(layout[0].kind) <= |bs|
    ensures Parse(layout[1..], bs[KindSize(layout[0].kind)..]).Ok?
    ensures Parse(layout, bs).value ==
            [ParseField(layout[0], bs[..KindSize(layout[0].kind)])] + Parse(layout[1..], bs[KindSize(layout[0].kind)..]).value
  {
  }

  /** Field i of a parsed record is read from the bytes at its offset. */
  lemma {:induction false} ParseFieldAt(layout: Layout, bs: seq<Byte>, i: nat)
    requires Parse(layout, bs).Ok? && i < |layout|
    ensures Offset(layout, i) + KindSize(layout[i].kind) <= |bs|
    ensures Parse(layout, bs).value[i] ==
            ParseField(layout[i], bs[Offset(layout, i)..Offset(layout, i) + KindSize(layout[i].kind)])
  {
    SizeOfPrefixBound(layout, i);
    var w := KindSize(layout[0].kind);
    ParseHead(layout, bs);
    if i > 0 {
      SizeOfPrefix(layout, i);
      ParseFieldAt(layout[1..], bs[w..], i - 1);
      SliceOfSlice(bs, w, Offset(layout[1..], i - 1), KindSize(layout[i].kind));
      assert layout[i] == layout[1..][i - 1];
    } else {
      assert layout[..0] == [];
    }
  }

  lemma SliceOfSlice(bs: seq<Byte>, w: nat, o: nat, k: nat)
    requires w + o + k <= |bs|
    ensures bs[w..][o..o + k] == bs[w + o..w + o + k]
  {
    assert forall p :: w + o <= p < w + o + k ==> bs[w..][p - w] == bs[p];
  }

  /** The bytes at field i's offset in a built record are that field's own encoding. */
  lemma {:induction false} BuildFieldAt(layout: Layout, values: seq<Value>, i: nat)
    requires Build(layout, values).Ok? && i < |layout|
    ensures Offset(layout, i) + KindSize(layout[i].kind) <= Size(layout)
    ensures Build(layout, values).value[Offset(layout, i)..Offset(layout, i) + KindSize(layout[i].kind)] ==
            BuildField(layout[i], values[i]).value
  {
    SizeOfPrefixBound(layout, i);
    var bs := Build(layout, values).value;
    var w := KindSize(layout[0].kind);
    var head := BuildField(layout[0], values[0]).value;
    var tail := Build(layout[1..], values[1..]).value;
    assert bs == head + tail;
    if i > 0 {
      SizeOfPrefix(layout, i);
      assert layout[i] == layout[1..][i - 1] && values[i] == values[1..][i - 1];
      BuildFieldAt(layout[1..], values[1..], i - 1);
      SliceOfConcat(head, tail, Offset(layout[1..], i - 1), KindSize(layout[i].kind));
    }
  }

  lemma SliceOfConcat(head: seq<Byte>, tail: seq<Byte>, o: nat, k: nat)
    requires o + k <= |tail|
    ensures (head + tail)[|head| + o..|head| + o + k] == tail[o..o + k]
  {
    var w := |head|;
    assert forall p :: w + o <= p < w + o + k ==> (head + tail)[p] == tail[p - w];
  }

  lemma {:induction false} SizeOfConcat(a: Layout, b: Layout)
    ensures Size(a + b) == Size(a) + Size(b)
  {
    if a == [] {
      assert a + b == b;
    } else {
      assert (a + b)[0] == a[0] && (a + b)[1..] == a[1..] + b;
      SizeOfConcat(a[1..], b);
    }
  }

  /** A run of consecutive fields of one kind. */
  function Fields(names: seq<string>, kind: Kind): (layout: Layout)
    ensures |layout| == |names|
    ensures forall i :: 0 <= i < |names| ==> layout[i] == Field(names[i], kind)
  {
    seq(|names|, i requires 0 <= i < |names| => Field(names[i], kind))
  }

  lemma {:induction false} SizeOfFields(names: seq<string>, kind: Kind)
    ensures Size(Fields(names, kind)) == |names| * KindSize(kind)
  {
    if names != [] {
      assert Fields(names, kind)[1..] == Fields(names[1..], kind);
      SizeOfFields(names[1..], kind);
    }
  }

  // ---------------------------------------------------------------------------------------------
  // POOL_INFO_LAYOUT, SWAP_LAYOUT and LIQ_LAYOUT

  const U8 := UInt(1)
  const U64 := UInt(8)
  const U128 := UInt(16)

  const PoolInfoLayout: Layout := [Field("instruction", U8), Field("simulate_type", U8)]
  const SwapLayout: Layout := [Field("instruction", U8), Field("amount_in", U64), Field("min_amount_out", U64)]
  const LiqLayout: Layout := [Field("instruction", U8), Field("amount_in", U64)]

  /** 2^64: the first amount an Int64ul field cannot hold. */
  const U64Bound: nat := 0x1_0000_0000_0000_0000

  lemma Pow256Values()
    ensures Pow256(1) == 256 && Pow256(8) == U64Bound
    ensures Pow256(2) == 0x1_0000 && Pow256(4) == 0x1_0000_0000
  {
    assert Pow256(2) == 0x1_0000;
    assert Pow256(4) == 0x1_0000_0000;
    assert Pow256(6) == 0x1_0000_0000_0000;
  }

  /** A field in front of a layout adds its own width. */
  lemma SizeOfCons(f: Field, rest: Layout)
    ensures Size([f] + rest) == KindSize(f.kind) + Size(rest)
  {
    assert ([f] + rest)[1..] == rest;
  }

  /** POOL_INFO_LAYOUT is two single-byte fields; SWAP_LAYOUT is 17 bytes and LIQ_LAYOUT 9. */
  lemma SmallLayoutSizes()
    ensures Size(PoolInfoLayout) == 2 && Offset(PoolInfoLayout, 1) == 1
    ensures Size(SwapLayout) == 17 && Offset(SwapLayout, 1) == 1 && Offset(SwapLayout, 2) == 9
    ensures Size(LiqLayout) == 9 && Offset(LiqLayout, 1) == 1
  {
    var i8 := Field("instruction", U8);
    var a64 := Field("amount_in", U64);
    SizeOfCons(i8, []);
    SizeOfCons(a64, []);
    SizeOfCons(Field("simulate_type", U8), []);
    SizeOfCons(Field("min_amount_out", U64), []);
    SizeOfCons(i8, [Field("simulate_type", U8)]);
    SizeOfCons(a64, [Field("min_amount_out", U64)]);
    SizeOfCons(i8, [a64, Field("min_amount_out", U64)]);
    SizeOfCons(i8, [a64]);
    assert [i8] + [] == [i8] && [a64] + [] == [a64];
    assert PoolInfoLayout == [i8] + [Field("simulate_type", U8)] && PoolInfoLayout[..1] == [i8] + [];
    assert SwapLayout == [i8] + [a64, Field("min_amount_out", U64)];
    assert SwapLayout[..1] == [i8] + [] && SwapLayout[..2] == [i8] + [a64];
    assert LiqLayout == [i8] + [a64] && LiqLayout[..1] == [i8] + [];
  }

  datatype PoolInfo = PoolInfo(instruction: int, simulateType: int)
  datatype Swap = Swap(instruction: int, amountIn: int, minAmountOut: int)
  datatype Liq = Liq(instruction: int, amountIn: int)

  /** POOL_INFO_LAYOUT.build: two single bytes. */
  function BuildPoolInfo(p: PoolInfo): (r: Result<seq<Byte>, Error>)
    ensures r.Ok? <==> 0 <= p.instruction < 256 && 0 <= p.simulateType < 256
    ensures r.Ok? ==> r.value == [p.instruction, p.simulateType]
  {
    var r := Build(PoolInfoLayout, [Int(p.instruction), Int(p.simulateType)]);
    Pow256Values();
    SmallLayoutSizes();
    assert AllFit(PoolInfoLayout, [Int(p.instruction), Int(p.simulateType)]) <==>
           Fits(PoolInfoLayout[0], Int(p.instruction)) && Fits(PoolInfoLayout[1], Int(p.simulateType));
    if r.Ok? then
      BuildFieldAt(PoolInfoLayout, [Int(p.instruction), Int(p.simulateType)], 0);
      BuildFieldAt(PoolInfoLayout, [Int(p.instruction), Int(p.simulateType)], 1);
      r
    else r
  }

  function ParsePoolInfo(bs: seq<Byte>): (r: Result<PoolInfo, Error>)
    ensures r.Ok? <==> |bs| >= 2
  {
    var r := Parse(PoolInfoLayout, bs);
    SmallLayoutSizes();
    if r.Err? then Err(r.error) else Ok(PoolInfo(r.value[0].n, r.value[1].n))
  }

  /** SWAP_LAYOUT.build: the opcode byte, then amount_in and min_amount_out as 8-byte little-endian
      unsigned integers; any field out of range makes the build fail. */
  function BuildSwap(s: Swap): (r: Result<seq<Byte>, Error>)
    ensures r.Ok? <==> 0 <= s.instruction < 256 && 0 <= s.amountIn < U64Bound && 0 <= s.minAmountOut < U64Bound
    ensures r.Ok? ==> |r.value| == 17 && r.value[0] == s.instruction
    ensures r.Ok? ==> r.value[1..9] == LittleEndian(s.amountIn, 8) && r.value[9..] == LittleEndian(s.minAmountOut, 8)
  {
    var vs := [Int(s.instruction), Int(s.amountIn), Int(s.minAmountOut)];
    var r := Build(SwapLayout, vs);
    Pow256Values();
    SmallLayoutSizes();
    assert AllFit(SwapLayout, vs) <==> Fits(SwapLayout[0], vs[0]) && Fits(SwapLayout[1], vs[1]) && Fits(SwapLayout[2], vs[2]);
    if r.Ok? then
      BuildFieldAt(SwapLayout, vs, 0);
      BuildFieldAt(SwapLayout, vs, 1);
      BuildFieldAt(SwapLayout, vs, 2);
      r
    else r
  }

  function ParseSwap(bs: seq<Byte>): (r: Result<Swap, Error>)
    ensures r.Ok? <==> |bs| >= 17
  {
    var r := Parse(SwapLayout, bs);
    SmallLayoutSizes();
    if r.Err? then Err(r.error) else Ok(Swap(r.value[0].n, r.value[1].n, r.value[2].n))
  }

  /** LIQ_LAYOUT.build: the opcode byte, then amount_in as an 8-byte little-endian unsigned integer. */
  function BuildLiq(l: Liq): (r: Result<seq<Byte>, Error>)
    ensures r.Ok? <==> 0 <= l.instruction < 256 && 0 <= l.amountIn < U64Bound
    ensures r.Ok? ==> |r.value| == 9 && r.value[0] == l.instruction && r.value[1..] == LittleEndian(l.amountIn, 8)
  {
    var vs := [Int(l.instruction), Int(l.amountIn)];
    var r := Build(LiqLayout, vs);
    Pow256Values();
    SmallLayoutSizes();
    assert AllFit(LiqLayout, vs) <==> Fits(LiqLayout[0], vs[0]) && Fits(LiqLayout[1], vs[1]);
    if r.Ok? then
      BuildFieldAt(LiqLayout, vs, 0);
      BuildFieldAt(LiqLayout, vs, 1);
      r
    else r
  }

  function ParseLiq(bs: seq<Byte>): (r: Result<Liq, Error>)
    ensures r.Ok? <==> |bs| >= 9
  {
    var r := Parse(LiqLayout, bs);
    SmallLayoutSizes();
    if r.Err? then Err(r.error) else Ok(Liq(r.value[0].n, r.value[1].n))
  }

  lemma PoolInfoRoundTrip(p: PoolInfo)
    requires BuildPoolInfo(p).Ok?
    ensures ParsePoolInfo(BuildPoolInfo(p).value) == Ok(p)
  {
    var vs := [Int(p.instruction), Int(p.simulateType)];
    ParseBuild(PoolInfoLayout, vs, []);
    assert BuildPoolInfo(p).value + [] == BuildPoolInfo(p).value;
    assert vs[..2] == vs;
  }

  /** Decoding an encoded swap payload gives back the opcode and both amounts. */
  lemma SwapRoundTrip(s: Swap)
    requires BuildSwap(s).Ok?
    ensures ParseSwap(BuildSwap(s).value) == Ok(s)
  {
    var vs := [Int(s.instruction), Int(s.amountIn), Int(s.minAmountOut)];
    ParseBuild(SwapLayout, vs, []);
    assert BuildSwap(s).value + [] == BuildSwap(s).value;
    assert vs[..3] == vs;
  }

  /** Decoding an encoded withdraw payload gives back the opcode and the amount. */
  lemma LiqRoundTrip(l: Liq)
    requires BuildLiq(l).Ok?
    ensures ParseLiq(BuildLiq(l).value) == Ok(l)
  {
    var vs := [Int(l.instruction), Int(l.amountIn)];
    ParseBuild(LiqLayout, vs, []);
    assert BuildLiq(l).value + [] == BuildLiq(l).value;
    assert vs[..2] == vs;
  }

  // ---------------------------------------------------------------------------------------------
  // AMM_INFO_LAYOUT_V4

  const AmmU64Names: seq<string> := [
    "status", "nonce", "order_num", "depth", "base_decimal", "quote_decimal", "state", "reset_flag",
    "min_size", "vol_max_cut_ratio", "amount_wave_ratio", "base_lot_size", "quote_lot_size",
    "min_price_multiplier", "max_price_multiplier", "system_decimal_value",
    // fees
    "min_separate_numerator", "min_separate_denominator", "trade_fee_numerator", "trade_fee_denominator",
    "pnl_numerator", "pnl_denominator", "swap_fee_numerator", "swap_fee_denominator",
    // output data
    "base_need_take_pnl", "quote_need_take_pnl", "quote_total_pnl", "base_total_pnl"]
  const AmmU128Names1: seq<string> := [
    "quote_total_deposited", "base_total_deposited", "swap_base_in_amount", "swap_quote_out_amount"]
  const AmmU128Names2: seq<string> := ["swap_quote_in_amount", "swap_base_out_amount"]
  const AmmKeyNames: seq<string> := [
    "base_vault", "quote_vault", "base_mint", "quote_mint", "lp_mint", "open_orders", "market_id",
    "serum_program_id", "target_orders", "withdraw_queue", "lp_vault", "amm_owner"]

  /** The 49 fields of the AMM v4 pool state account, in on-chain order. */
  const AmmInfoLayoutV4: Layout :=
    Fields(AmmU64Names, U64)
    + Fields(AmmU128Names1, U128)
    + [Field("swap_base2_quote_fee", U64)]
    + Fields(AmmU128Names2, U128)
    + [Field("swap_quote2_base_fee", U64)]
    + Fields(AmmKeyNames, Raw(32))
    + [Field("lpReserve", U64)]

  /** The AMM record has 49 fields and a fixed size of 728 bytes. */
  lemma AmmInfoSize()
    ensures |AmmInfoLayoutV4| == 49
    ensures Size(AmmInfoLayoutV4) == 728
  {
    var a := Fields(AmmU64Names, U64);
    var b := Fields(AmmU128Names1, U128);
    var c := [Field("swap_base2_quote_fee", U64)];
    var d := Fields(AmmU128Names2, U128);
    var e := [Field("swap_quote2_base_fee", U64)];
    var f := Fields(AmmKeyNames, Raw(32));
    var g := [Field("lpReserve", U64)];
    SizeOfFields(AmmU64Names, U64);
    SizeOfFields(AmmU128Names1, U128);
    SizeOfFields(AmmU128Names2, U128);
    SizeOfFields(AmmKeyNames, Raw(32));
    assert Size(c) == 8 && Size(e) == 8 && Size(g) == 8;
    SizeOfConcat(a, b);
    SizeOfConcat(a + b, c);
    SizeOfConcat(a + b + c, d);
    SizeOfConcat(a + b + c + d, e);
    SizeOfConcat(a + b + c + d + e, f);
    SizeOfConcat(a + b + c + d + e + f, g);
  }

  lemma {:induction false} OffsetOfConcat(a: Layout, b: Layout, j: nat)
    requires j <= |b|
    ensures Offset(a + b, |a| + j) == Size(a) + Offset(b, j)
  {
    assert (a + b)[..|a| + j] == a + b[..j];
    SizeOfConcat(a, b[..j]);
  }

  lemma OffsetInFields(names: seq<string>, kind: Kind, j: nat)
    requires j <= |names|
    ensures Offset(Fields(names, kind), j) == j * KindSize(kind)
  {
    assert Fields(names, kind)[..j] == Fields(names[..j], kind);
    SizeOfFields(names[..j], kind);
  }

  /** The six 128-bit fields of the AMM record sit at byte offsets 224, 240, 256, 272, 296 and 312. */
  lemma AmmInfoU128Offsets()
    ensures AmmInfoLayoutV4[28] == Field("quote_total_deposited", U128) && Offset(AmmInfoLayoutV4, 28) == 224
    ensures AmmInfoLayoutV4[29] == Field("base_total_deposited", U128) && Offset(AmmInfoLayoutV4, 29) == 240
    ensures AmmInfoLayoutV4[30] == Field("swap_base_in_amount", U128) && Offset(AmmInfoLayoutV4, 30) == 256
    ensures AmmInfoLayoutV4[31] == Field("swap_quote_out_amount", U128) && Offset(AmmInfoLayoutV4, 31) == 272
    ensures AmmInfoLayoutV4[33] == Field("swap_quote_in_amount", U128) && Offset(AmmInfoLayoutV4, 33) == 296
    ensures AmmInfoLayoutV4[34] == Field("swap_base_out_amount", U128) && Offset(AmmInfoLayoutV4, 34) == 312
  {
    AmmInfoTotalsOffsets();
    AmmInfoSwapOffsets();
  }

  /** The four 128-bit totals follow the sixteen 64-bit fields. */
  lemma AmmInfoTotalsOffsets()
    ensures forall j :: 0 <= j < 4 ==>
      AmmInfoLayoutV4[28 + j] == Field(AmmU128Names1[j], U128) && Offset(AmmInfoLayoutV4, 28 + j) == 224 + 16 * j
  {
    var a := Fields(AmmU64Names, U64);
    var b := Fields(AmmU128Names1, U128);
    var rest := [Field("swap_base2_quote_fee", U64)] + Fields(AmmU128Names2, U128) +
                [Field("swap_quote2_base_fee", U64)] + Fields(AmmKeyNames, Raw(32)) + [Field("lpReserve", U64)];
    assert AmmInfoLayoutV4 == a + (b + rest);
    SizeOfFields(AmmU64Names, U64);
    forall j | 0 <= j < 4
      ensures AmmInfoLayoutV4[28 + j] == Field(AmmU128Names1[j], U128) && Offset(AmmInfoLayoutV4, 28 + j) == 224 + 16 * j
    {
      OffsetOfConcat(a, b + rest, j);
      OffsetOfConcat([], b, j);
      assert (b + rest)[..j] == b[..j];
      OffsetInFields(AmmU128Names1, U128, j);
    }
  }

  /** The two 128-bit swap totals after the base-to-quote fee. */
  lemma AmmInfoSwapOffsets()
    ensures forall j :: 0 <= j < 2 ==>
      AmmInfoLayoutV4[33 + j] == Field(AmmU128Names2[j], U128) && Offset(AmmInfoLayoutV4, 33 + j) == 296 + 16 * j
  {
    var a := Fields(AmmU64Names, U64);
    var b := Fields(AmmU128Names1, U128);
    var c := [Field("swap_base2_quote_fee", U64)];
    var d := Fields(AmmU128Names2, U128);
    var rest2 := [Field("swap_quote2_base_fee", U64)] + Fields(AmmKeyNames, Raw(32)) + [Field("lpReserve", U64)];
    var ab := a + b + c;
    assert AmmInfoLayoutV4 == ab + (d + rest2);
    SizeOfFields(AmmU64Names, U64);
    SizeOfFields(AmmU128Names1, U128);
    SizeOfCons(c[0], []);
    SizeOfConcat(a, b);
    SizeOfConcat(a + b, c);
    forall j | 0 <= j < 2
      ensures AmmInfoLayoutV4[33 + j] == Field(AmmU128Names2[j], U128) && Offset(AmmInfoLayoutV4, 33 + j) == 296 + 16 * j
    {
      OffsetOfConcat(ab, d + rest2, j);
      assert (d + rest2)[..j] == d[..j];
      OffsetInFields(AmmU128Names2, U128, j);
    }
  }

  lemma ParseU128At(layout: Layout, bs: seq<Byte>, i: nat, offset: nat)
    requires Parse(layout, bs).Ok? && i < |layout| && layout[i].kind == U128 && Offset(layout, i) == offset
    ensures offset + 16 <= |bs| && Parse(layout, bs).value[i] == Int(FromLittleEndian(bs[offset..offset + 16]))
  {
    ParseFieldAt(layout, bs, i);
  }

  /** Each 16-byte field of a parsed AMM record is the unsigned little-endian integer stored at its offset. */
  lemma AmmInfoDecodesU128(bs: seq<Byte>)
    requires Parse(AmmInfoLayoutV4, bs).Ok?
    ensures |bs| >= 728
    ensures Parse(AmmInfoLayoutV4, bs).value[28] == Int(FromLittleEndian(bs[224..240]))
    ensures Parse(AmmInfoLayoutV4, bs).value[29] == Int(FromLittleEndian(bs[240..256]))
    ensures Parse(AmmInfoLayoutV4, bs).value[30] == Int(FromLittleEndian(bs[256..272]))
    ensures Parse(AmmInfoLayoutV4, bs).value[31] == Int(FromLittleEndian(bs[272..288]))
    ensures Parse(AmmInfoLayoutV4, bs).value[33] == Int(FromLittleEndian(bs[296..312]))
    ensures Parse(AmmInfoLayoutV4, bs).value[34] == Int(FromLittleEndian(bs[312..328]))
  {
    AmmInfoSize();
    AmmInfoU128Offsets();
    ParseU128At(AmmInfoLayoutV4, bs, 28, 224);
    ParseU128At(AmmInfoLayoutV4, bs, 29, 240);
    ParseU128At(AmmInfoLayoutV4, bs, 30, 256);
    ParseU128At(AmmInfoLayoutV4, bs, 31, 272);
    ParseU128At(AmmInfoLayoutV4, bs, 33, 296);
    ParseU128At(AmmInfoLayoutV4, bs, 34, 312);
  }

  /** An AMM record survives build-then-parse, and its 728 bytes survive parse-then-build. */
  lemma AmmInfoRoundTrip(values: seq<Value>, bs: seq<Byte>)
    ensures Build(AmmInfoLayoutV4, values).Ok? ==>
              |Build(AmmInfoLayoutV4, values).value| == 728 &&
              Parse(AmmInfoLayoutV4, Build(AmmInfoLayoutV4, values).value) == Ok(values[..49])
    ensures Parse(AmmInfoLayoutV4, bs).Ok? <==> |bs| >= 728
    ensures Parse(AmmInfoLayoutV4, bs).Ok? ==> Build(AmmInfoLayoutV4, Parse(AmmInfoLayoutV4, bs).value) == Ok(bs[..728])
  {
    AmmInfoSize();
    if Build(AmmInfoLayoutV4, values).Ok? {
      ParseBuild(AmmInfoLayoutV4, values, []);
      assert Build(AmmInfoLayoutV4, values).value + [] == Build(AmmInfoLayoutV4, values).value;
    }
    if Parse(AmmInfoLayoutV4, bs).Ok? {
      BuildParse(AmmInfoLayoutV4, bs);
    }
  }
}

/** METADAT_STRUCTURE of layouts.py: the Metaplex create-metadata instruction (discriminator, then
    CreateMetadataAccountArgsV3) in the Borsh binary format. Borsh strings are modelled by their
    UTF-8 bytes. */
module Metadata {
  import opened Wrappers
  import opened Bytes

  datatype Error =
    | OutOfRange(what: string)   // an integer, a string length or a vector length that does not fit its field
    | WrongLength(what: string)  // a Bytes(32) field given a byte string of another length
    | EndOfInput                 // decoding ran out of bytes
    | BadTag(what: string)       // an enum index outside its range

  type Decoded<T> = Result<(T, seq<Byte>), Error>

  datatype Creator = Creator(address: seq<Byte>, verified: bool, share: int)
  datatype Collection = Collection(verified: bool, key: seq<Byte>)
  datatype UseMethod = Burn | Multiple | Single
  datatype Uses = Uses(useMethod: UseMethod, remaining: int, total: int)
  datatype Data = Data(
    name: seq<Byte>,
    symbol: seq<Byte>,
    uri: seq<Byte>,
    sellerFeeBasisPoints: int,
    creators: Option<seq<Creator>>,
    collection: Option<Collection>,
    uses: Option<Uses>)
  datatype CreateMetadataAccountArgsV3 = CreateMetadataAccountArgsV3(
    data: Data,
    isMutable: bool,
    collectionDetails: Option<seq<Byte>>)
  datatype MetadataInstruction = MetadataInstruction(
    instructionDiscriminator: int,
    createMetadataAccountArgsV3: CreateMetadataAccountArgsV3)

  const U32Bound: nat := 0x1_0000_0000

  lemma Pow256Small()
    ensures Pow256(1) == 256 && Pow256(2) == 0x1_0000 && Pow256(4) == U32Bound
  {
    assert Pow256(2) == 0x1_0000;
  }

  // ---------------------------------------------------------------------------------------------
  // Borsh primitives

  /** U8, U16, U32 and U64: `width` little-endian bytes; a value out of range is an error. */
  function EncodeUInt(x: int, width: nat, what: string): (r: Result<seq<Byte>, Error>)
    ensures r.Ok? <==> 0 <= x < Pow256(width)
    ensures r.Ok? ==> r.value == LittleEndian(x, width)
  {
    if 0 <= x < Pow256(width) then Ok(LittleEndian(x, width)) else Err(OutOfRange(what))
  }

  function DecodeUInt(bs: seq<Byte>, width: nat): (r: Decoded<nat>)
    ensures r.Ok? <==> |bs| >= width
    ensures r.Ok? ==> r.value.0 < Pow256(width) && |r.value.1| == |bs| - width
  {
    if |bs| < width then Err(EndOfInput) else Ok((FromLittleEndian(bs[..width]), bs[width..]))
  }

  lemma DecodeUIntOf(x: nat, width: nat, rest: seq<Byte>)
    requires x < Pow256(width)
    ensures DecodeUInt(LittleEndian(x, width) + rest, width) == Ok((x, rest))
  {
    var e := LittleEndian(x, width);
    assert (e + rest)[..width] == e && (e + rest)[width..] == rest;
    FromLittleEndianOfLittleEndian(x, width);
  }

  /** Bool (construct's Flag): written as one byte, 0 or 1; any nonzero byte reads as true. */
  function EncodeBool(b: bool): (r: seq<Byte>)
    ensures |r| == 1
  {
    [if b then 1 else 0]
  }

  function DecodeBool(bs: seq<Byte>): (r: Decoded<bool>)
    ensures r.Ok? <==> |bs| >= 1
    ensures r.Ok? ==> r.value.0 == (bs[0] != 0) && r.value.1 == bs[1..]
  {
    if |bs| < 1 then Err(EndOfInput)
    else Ok((bs[0] != 0, bs[1..]))
  }

  /** String: a u32 little-endian byte count, then the bytes. */
  function EncodeString(s: seq<Byte>): (r: Result<seq<Byte>, Error>)
    ensures r.Ok? <==> |s| < U32Bound
    ensures r.Ok? ==> |r.value| == 4 + |s| && r.value[4..] == s
  {
    Pow256Small();
    if |s| < U32Bound then Ok(LittleEndian(|s|, 4) + s) else Err(OutOfRange("string length"))
  }

  function DecodeString(bs: seq<Byte>): (r: Decoded<seq<Byte>>)
    ensures r.Ok? ==> |r.value.1| < |bs|
  {
    var (n, tail) :- DecodeUInt(bs, 4);
    if |tail| < n then Err(EndOfInput) else Ok((tail[..n], tail[n..]))
  }

  lemma DecodeStringOf(s: seq<Byte>, rest: seq<Byte>)
    requires EncodeString(s).Ok?
    ensures DecodeString(EncodeString(s).value + rest) == Ok((s, rest))
  {
    Pow256Small();
    var len := LittleEndian(|s|, 4);
    assert EncodeString(s).value + rest == len + (s + rest);
    DecodeUIntOf(|s|, 4, s + rest);
    assert (s + rest)[..|s|] == s && (s + rest)[|s|..] == rest;
  }

  /** UseMethod: the variant's index as one byte: Burn 0, Multiple 1, Single 2. */
  function EncodeUseMethod(m: UseMethod): (r: seq<Byte>)
    ensures |r| == 1
  {
    match m
    case Burn => [0]
    case Multiple => [1]
    case Single => [2]
  }

  function DecodeUseMethod(bs: seq<Byte>): (r: Decoded<UseMethod>)
    ensures r.Ok? ==> |bs| >= 1 && bs[0] < 3 && r.value.1 == bs[1..]
  {
    if |bs| < 1 then Err(EndOfInput)
    else if bs[0] == 0 then Ok((Burn, bs[1..]))
    else if bs[0] == 1 then Ok((Multiple, bs[1..]))
    else if bs[0] == 2 then Ok((Single, bs[1..]))
    else Err(BadTag("UseMethod"))
  }

  /** The enum indices are 0, 1 and 2 in declaration order, and each index decodes to its variant. */
  lemma UseMethodIndices(rest: seq<Byte>)
    ensures EncodeUseMethod(Burn) == [0] && EncodeUseMethod(Multiple) == [1] && EncodeUseMethod(Single) == [2]
    ensures forall m :: DecodeUseMethod(EncodeUseMethod(m) + rest) == Ok((m, rest))
  {
    forall m ensures DecodeUseMethod(EncodeUseMethod(m) + rest) == Ok((m, rest)) {
      assert (EncodeUseMethod(m) + rest)[1..] == rest;
    }
  }

  // ---------------------------------------------------------------------------------------------
  // The record's structs

  /** Creator: address as Bytes(32), verified as Bool, share as U8. */
  function EncodeCreator(c: Creator): (r: Result<seq<Byte>, Error>)
    ensures r.Ok? <==> |c.address| == 32 && 0 <= c.share < 256
    ensures r.Ok? ==> |r.value| == 34
  {
    Pow256Small();
    if |c.address| != 32 then Err(WrongLength("creator address"))
    else
      var share :- EncodeUInt(c.share, 1, "share");
      Ok(c.address + EncodeBool(c.verified) + share)
  }

  function DecodeCreator(bs: seq<Byte>): (r: Decoded<Creator>)
    ensures r.Ok? ==> |r.value.1| < |bs|
  {
    if |bs| < 32 then Err(EndOfInput)
    else
      var (verified, tail) :- DecodeBool(bs[32..]);
      var (share, tail') :- DecodeUInt(tail, 1);
      Ok((Creator(bs[..32], verified, share), tail'))
  }

  lemma DecodeCreatorOf(c: Creator, rest: seq<Byte>)
    requires EncodeCreator(c).Ok?
    ensures DecodeCreator(EncodeCreator(c).value + rest) == Ok((c, rest))
  {
    Pow256Small();
    var share := LittleEndian(c.share, 1);
    var bs := EncodeCreator(c).value + rest;
    assert bs == c.address + (EncodeBool(c.verified) + (share + rest));
    assert bs[..32] == c.address && bs[32..] == EncodeBool(c.verified) + (share + rest);
    assert (EncodeBool(c.verified) + (share + rest))[1..] == share + rest;
    DecodeUIntOf(c.share, 1, rest);
  }

  /** The creators themselves, back to back (the body of a Borsh Vec). */
  function EncodeCreatorList(cs: seq<Creator>): (r: Result<seq<Byte>, Error>)
    ensures r.Ok? <==> forall i :: 0 <= i < |cs| ==> EncodeCreator(cs[i]).Ok?
    ensures r.Ok? ==> |r.value| == 34 * |cs|
  {
    if cs == [] then Ok([])
    else
      var head := EncodeCreator(cs[0]);
      var tail := EncodeCreatorList(cs[1..]);
      assert forall i :: 1 <= i < |cs| ==> cs[i] == cs[1..][i - 1];
      if head.Err? then Err(head.error)
      else if tail.Err? then Err(tail.error)
      else Ok(head.value + tail.value)
  }

  function DecodeCreatorList(n: nat, bs: seq<Byte>): (r: Decoded<seq<Creator>>)
    ensures r.Ok? ==> |r.value.0| == n
    decreases n
  {
    if n == 0 then Ok(([], bs))
    else
      var (c, tail) :- DecodeCreator(bs);
      var (cs, tail') :- DecodeCreatorList(n - 1, tail);
      Ok(([c] + cs, tail'))
  }

  lemma {:induction false} DecodeCreatorListOf(cs: seq<Creator>, rest: seq<Byte>)
    requires EncodeCreatorList(cs).Ok?
    ensures DecodeCreatorList(|cs|, EncodeCreatorList(cs).value + rest) == Ok((cs, rest))
  {
    if cs == [] {
      assert EncodeCreatorList(cs).value + rest == rest;
    } else {
      var head := EncodeCreator(cs[0]).value;
      var tail := EncodeCreatorList(cs[1..]).value;
      assert EncodeCreatorList(cs).value + rest == head + (tail + rest);
      DecodeCreatorOf(cs[0], tail + rest);
      DecodeCreatorListOf(cs[1..], rest);
      assert |cs| - 1 == |cs[1..]|;
      assert [cs[0]] + cs[1..] == cs;
    }
  }

  /** Vec(Creator): a u32 little-endian element count, then the elements. */
  function EncodeCreators(cs: seq<Creator>): (r: Result<seq<Byte>, Error>)
    ensures r.Ok? ==> |cs| < Pow256(4) && |r.value| == 4 + 34 * |cs| && r.value[..4] == LittleEndian(|cs|, 4)
  {
    Pow256Small();
    var count :- EncodeUInt(|cs|, 4, "creators length");
    var body :- EncodeCreatorList(cs);
    Ok(count + body)
  }

  function DecodeCreators(bs: seq<Byte>): (r: Decoded<seq<Creator>>) {
    var (n, tail) :- DecodeUInt(bs, 4);
    DecodeCreatorList(n, tail)
  }

  lemma DecodeCreatorsOf(cs: seq<Creator>, rest: seq<Byte>)
    requires EncodeCreators(cs).Ok?
    ensures DecodeCreators(EncodeCreators(cs).value + rest) == Ok((cs, rest))
  {
    Pow256Small();
    var count := LittleEndian(|cs|, 4);
    var body := EncodeCreatorList(cs).value;
    assert EncodeCreators(cs).value + rest == count + (body + rest);
    DecodeUIntOf(|cs|, 4, body + rest);
    DecodeCreatorListOf(cs, rest);
  }

  /** Collection: verified as Bool, key as String. */
  function EncodeCollection(c: Collection): (r: Result<seq<Byte>, Error>)
    ensures r.Ok? <==> |c.key| < U32Bound
  {
    var key :- EncodeString(c.key);
    Ok(EncodeBool(c.verified) + key)
  }

  function DecodeCollection(bs: seq<Byte>): (r: Decoded<Collection>) {
    var (verified, tail) :- DecodeBool(bs);
    var (key, tail') :- DecodeString(tail);
    Ok((Collection(verified, key), tail'))
  }

  lemma DecodeCollectionOf(c: Collection, rest: seq<Byte>)
    requires EncodeCollection(c).Ok?
    ensures DecodeCollection(EncodeCollection(c).value + rest) == Ok((c, rest))
  {
    var key := EncodeString(c.key).value;
    assert EncodeCollection(c).value + rest == EncodeBool(c.verified) + (key + rest);
    assert (EncodeBool(c.verified) + (key + rest))[1..] == key + rest;
    DecodeStringOf(c.key, rest);
  }

  /** Uses: useMethod as its enum index, remaining and total as U64. */
  function EncodeUses(u: Uses): (r: Result<seq<Byte>, Error>)
    ensures r.Ok? <==> 0 <= u.remaining < Pow256(8) && 0 <= u.total < Pow256(8)
    ensures r.Ok? ==> |r.value| == 17 && r.value[..1] == EncodeUseMethod(u.useMethod)
  {
    var remaining :- EncodeUInt(u.remaining, 8, "remaining");
    var total :- EncodeUInt(u.total, 8, "total");
    Ok(EncodeUseMethod(u.useMethod) + remaining + total)
  }

  function DecodeUses(bs: seq<Byte>): (r: Decoded<Uses>) {
    var (m, tail) :- DecodeUseMethod(bs);
    var (remaining, tail') :- DecodeUInt(tail, 8);
    var (total, tail'') :- DecodeUInt(tail', 8);
    Ok((Uses(m, remaining, total), tail''))
  }

  lemma DecodeUsesOf(u: Uses, rest: seq<Byte>)
    requires EncodeUses(u).Ok?
    ensures DecodeUses(EncodeUses(u).value + rest) == Ok((u, rest))
  {
    var m := EncodeUseMethod(u.useMethod);
    var remaining := LittleEndian(u.remaining, 8);
    var total := LittleEndian(u.total, 8);
    assert EncodeUses(u).value + rest == m + (remaining + (total + rest));
    UseMethodIndices(remaining + (total + rest));
    DecodeUIntOf(u.remaining, 8, total + rest);
    DecodeUIntOf(u.total, 8, rest);
  }

  // ---------------------------------------------------------------------------------------------
  // Options: written as a 0 tag for None or a 1 tag followed by the payload; when read, any nonzero
  // tag is followed by the payload

  function EncodeCreatorsOption(o: Option<seq<Creator>>): (r: Result<seq<Byte>, Error>)
    ensures r.Ok? ==> |r.value| >= 1 && r.value[0] == (if o.Some? then 1 else 0)
    ensures o.None? ==> r == Ok([0])
  {
    match o
    case None => Ok([0])
    case Some(cs) => var payload :- EncodeCreators(cs); Ok([1] + payload)
  }

  function DecodeCreatorsOption(bs: seq<Byte>): (r: Decoded<Option<seq<Creator>>>)
    ensures |bs| >= 1 && bs[0] == 0 ==> r == Ok((None, bs[1..]))
    ensures r.Ok? ==> |bs| >= 1 && (r.value.0.Some? <==> bs[0] != 0)
  {
    if |bs| < 1 then Err(EndOfInput)
    else if bs[0] == 0 then Ok((None, bs[1..]))
    else var (cs, tail) :- DecodeCreators(bs[1..]); Ok((Some(cs), tail))
  }

  lemma DecodeCreatorsOptionOf(o: Option<seq<Creator>>, rest: seq<Byte>)
    requires EncodeCreatorsOption(o).Ok?
    ensures DecodeCreatorsOption(EncodeCreatorsOption(o).value + rest) == Ok((o, rest))
  {
    var bs := EncodeCreatorsOption(o).value + rest;
    match o {
      case None => assert bs[1..] == rest;
      case Some(cs) =>
        assert bs[1..] == EncodeCreators(cs).value + rest;
        DecodeCreatorsOf(cs, rest);
    }
  }

  function EncodeCollectionOption(o: Option<Collection>): (r: Result<seq<Byte>, Error>)
    ensures r.Ok? ==> |r.value| >= 1 && r.value[0] == (if o.Some? then 1 else 0)
    ensures o.None? ==> r == Ok([0])
  {
    match o
    case None => Ok([0])
    case Some(c) => var payload :- EncodeCollection(c); Ok([1] + payload)
  }

  function DecodeCollectionOption(bs: seq<Byte>): (r: Decoded<Option<Collection>>)
    ensures |bs| >= 1 && bs[0] == 0 ==> r == Ok((None, bs[1..]))
    ensures r.Ok? ==> |bs| >= 1 && (r.value.0.Some? <==> bs[0] != 0)
  {
    if |bs| < 1 then Err(EndOfInput)
    else if bs[0] == 0 then Ok((None, bs[1..]))
    else var (c, tail) :- DecodeCollection(bs[1..]); Ok((Some(c), tail))
  }

  lemma DecodeCollectionOptionOf(o: Option<Collection>, rest: seq<Byte>)
    requires EncodeCollectionOption(o).Ok?
    ensures DecodeCollectionOption(EncodeCollectionOption(o).value + rest) == Ok((o, rest))
  {
    var bs := EncodeCollectionOption(o).value + rest;
    match o {
      case None => assert bs[1..] == rest;
      case Some(c) =>
        assert bs[1..] == EncodeCollection(c).value + rest;
        DecodeCollectionOf(c, rest);
    }
  }

  function EncodeUsesOption(o: Option<Uses>): (r: Result<seq<Byte>, Error>)
    ensures r.Ok? ==> |r.value| >= 1 && r.value[0] == (if o.Some? then 1 else 0)
    ensures o.None? ==> r == Ok([0])
  {
    match o
    case None => Ok([0])
    case Some(u) => var payload :- EncodeUses(u); Ok([1] + payload)
  }

  function DecodeUsesOption(bs: seq<Byte>): (r: Decoded<Option<Uses>>)
    ensures |bs| >= 1 && bs[0] == 0 ==> r == Ok((None, bs[1..]))
    ensures r.Ok? ==> |bs| >= 1 && (r.value.0.Some? <==> bs[0] != 0)
  {
    if |bs| < 1 then Err(EndOfInput)
    else if bs[0] == 0 then Ok((None, bs[1..]))
    else var (u, tail) :- DecodeUses(bs[1..]); Ok((Some(u), tail))
  }

  lemma DecodeUsesOptionOf(o: Option<Uses>, rest: seq<Byte>)
    requires EncodeUsesOption(o).Ok?
    ensures DecodeUsesOption(EncodeUsesOption(o).value + rest) == Ok((o, rest))
  {
    var bs := EncodeUsesOption(o).value + rest;
    match o {
      case None => assert bs[1..] == rest;
      case Some(u) =>
        assert bs[1..] == EncodeUses(u).value + rest;
        DecodeUsesOf(u, rest);
    }
  }

  function EncodeStringOption(o: Option<seq<Byte>>): (r: Result<seq<Byte>, Error>)
    ensures r.Ok? ==> |r.value| >= 1 && r.value[0] == (if o.Some? then 1 else 0)
    ensures o.None? ==> r == Ok([0])
  {
    match o
    case None => Ok([0])
    case Some(s) => var payload :- EncodeString(s); Ok([1] + payload)
  }

  function DecodeStringOption(bs: seq<Byte>): (r: Decoded<Option<seq<Byte>>>)
    ensures |bs| >= 1 && bs[0] == 0 ==> r == Ok((None, bs[1..]))
    ensures r.Ok? ==> |bs| >= 1 && (r.value.0.Some? <==> bs[0] != 0)
  {
    if |bs| < 1 then Err(EndOfInput)
    else if bs[0] == 0 then Ok((None, bs[1..]))
    else var (s, tail) :- DecodeString(bs[1..]); Ok((Some(s), tail))
  }

  lemma DecodeStringOptionOf(o: Option<seq<Byte>>, rest: seq<Byte>)
    requires EncodeStringOption(o).Ok?
    ensures DecodeStringOption(EncodeStringOption(o).value + rest) == Ok((o, rest))
  {
    var bs := EncodeStringOption(o).value + rest;
    match o {
      case None => assert bs[1..] == rest;
      case Some(s) =>
        assert bs[1..] == EncodeString(s).value + rest;
        DecodeStringOf(s, rest);
    }
  }

  // ---------------------------------------------------------------------------------------------
  // The whole record

  /** The leading fields of Data: name, symbol, uri and sellerFeeBasisPoints. */
  function EncodeDataHead(d: Data): (r: Result<seq<Byte>, Error>)
    ensures r.Ok? <==> |d.name| < U32Bound && |d.symbol| < U32Bound && |d.uri| < U32Bound &&
                       0 <= d.sellerFeeBasisPoints < Pow256(2)
  {
    var name :- EncodeString(d.name);
    var symbol :- EncodeString(d.symbol);
    var uri :- EncodeString(d.uri);
    var fee :- EncodeUInt(d.sellerFeeBasisPoints, 2, "sellerFeeBasisPoints");
    Ok(name + symbol + uri + fee)
  }

  function DecodeDataHead(bs: seq<Byte>): (r: Decoded<(seq<Byte>, seq<Byte>, seq<Byte>, nat)>) {
    var (name, t1) :- DecodeString(bs);
    var (symbol, t2) :- DecodeString(t1);
    var (uri, t3) :- DecodeString(t2);
    var (fee, t4) :- DecodeUInt(t3, 2);
    Ok(((name, symbol, uri, fee), t4))
  }

  lemma DecodeDataHeadOf(d: Data, rest: seq<Byte>)
    requires EncodeDataHead(d).Ok?
    ensures DecodeDataHead(EncodeDataHead(d).value + rest) == Ok(((d.name, d.symbol, d.uri, d.sellerFeeBasisPoints), rest))
  {
    var name := EncodeString(d.name).value;
    var symbol := EncodeString(d.symbol).value;
    var uri := EncodeString(d.uri).value;
    var fee := LittleEndian(d.sellerFeeBasisPoints, 2);
    var t3 := fee + rest;
    var t2 := uri + t3;
    var t1 := symbol + t2;
    assert EncodeDataHead(d).value + rest == name + t1;
    DecodeStringOf(d.name, t1);
    DecodeStringOf(d.symbol, t2);
    DecodeStringOf(d.uri, t3);
    DecodeUIntOf(d.sellerFeeBasisPoints, 2, rest);
  }

  /** The trailing fields of Data: the creators, collection and uses options. */
  function EncodeDataTail(d: Data): (r: Result<seq<Byte>, Error>)
    ensures r.Ok? ==> |r.value| >= 3 && r.value[0] == (if d.creators.Some? then 1 else 0)
    ensures d.creators.None? && d.collection.None? && d.uses.None? ==> r == Ok([0, 0, 0])
  {
    var none: seq<Byte> := [0];
    assert none + none + none == [0, 0, 0];
    var creators :- EncodeCreatorsOption(d.creators);
    var collection :- EncodeCollectionOption(d.collection);
    var uses :- EncodeUsesOption(d.uses);
    Ok(creators + collection + uses)
  }

  function DecodeDataTail(bs: seq<Byte>): (r: Decoded<(Option<seq<Creator>>, Option<Collection>, Option<Uses>)>) {
    var (creators, t1) :- DecodeCreatorsOption(bs);
    var (collection, t2) :- DecodeCollectionOption(t1);
    var (uses, t3) :- DecodeUsesOption(t2);
    Ok(((creators, collection, uses), t3))
  }

  lemma DecodeDataTailOf(d: Data, rest: seq<Byte>)
    requires EncodeDataTail(d).Ok?
    ensures DecodeDataTail(EncodeDataTail(d).value + rest) == Ok(((d.creators, d.collection, d.uses), rest))
  {
    var creators := EncodeCreatorsOption(d.creators).value;
    var collection := EncodeCollectionOption(d.collection).value;
    var uses := EncodeUsesOption(d.uses).value;
    var t2 := uses + rest;
    var t1 := collection + t2;
    assert EncodeDataTail(d).value + rest == creators + t1;
    DecodeCreatorsOptionOf(d.creators, t1);
    DecodeCollectionOptionOf(d.collection, t2);
    DecodeUsesOptionOf(d.uses, rest);
  }

  /** Data: name, symbol and uri as String, sellerFeeBasisPoints as U16, then the three options. */
  function EncodeData(d: Data): (r: Result<seq<Byte>, Error>)
    ensures r.Ok? <==> EncodeDataHead(d).Ok? && EncodeDataTail(d).Ok?
    ensures r.Ok? ==> |r.value| >= 17 + |d.name| + |d.symbol| + |d.uri|
  {
    var head :- EncodeDataHead(d);
    var tail :- EncodeDataTail(d);
    Ok(head + tail)
  }

  function DecodeData(bs: seq<Byte>): (r: Decoded<Data>) {
    var ((name, symbol, uri, fee), t1) :- DecodeDataHead(bs);
    var ((creators, collection, uses), t2) :- DecodeDataTail(t1);
    Ok((Data(name, symbol, uri, fee, creators, collection, uses), t2))
  }

  lemma DecodeDataOf(d: Data, rest: seq<Byte>)
    requires EncodeData(d).Ok?
    ensures DecodeData(EncodeData(d).value + rest) == Ok((d, rest))
  {
    var head := EncodeDataHead(d).value;
    var tail := EncodeDataTail(d).value;
    assert EncodeData(d).value + rest == head + (tail + rest);
    DecodeDataHeadOf(d, tail + rest);
    DecodeDataTailOf(d, rest);
  }

  function EncodeArgs(a: CreateMetadataAccountArgsV3): (r: Result<seq<Byte>, Error>)
    ensures r.Ok? <==> EncodeData(a.data).Ok? && EncodeStringOption(a.collectionDetails).Ok?
    ensures r.Ok? ==> |r.value| > |EncodeData(a.data).value| + 1 &&
                      r.value[|EncodeData(a.data).value|] == (if a.isMutable then 1 else 0)
  {
    var data :- EncodeData(a.data);
    var details :- EncodeStringOption(a.collectionDetails);
    Ok(data + EncodeBool(a.isMutable) + details)
  }

  function DecodeArgs(bs: seq<Byte>): (r: Decoded<CreateMetadataAccountArgsV3>) {
    var (data, t1) :- DecodeData(bs);
    var (isMutable, t2) :- DecodeBool(t1);
    var (details, t3) :- DecodeStringOption(t2);
    Ok((CreateMetadataAccountArgsV3(data, isMutable, details), t3))
  }

  lemma DecodeArgsOf(a: CreateMetadataAccountArgsV3, rest: seq<Byte>)
    requires EncodeArgs(a).Ok?
    ensures DecodeArgs(EncodeArgs(a).value + rest) == Ok((a, rest))
  {
    var data := EncodeData(a.data).value;
    var details := EncodeStringOption(a.collectionDetails).value;
    var t2 := details + rest;
    var t1 := EncodeBool(a.isMutable) + t2;
    assert EncodeArgs(a).value + rest == data + t1;
    DecodeDataOf(a.data, t1);
    assert t1[1..] == t2;
    DecodeStringOptionOf(a.collectionDetails, rest);
  }

  /** METADAT_STRUCTURE.build: the discriminator as U8, then the arguments. */
  function EncodeMetadataInstruction(m: MetadataInstruction): (r: Result<seq<Byte>, Error>)
    ensures r.Ok? ==> |r.value| >= 1 && r.value[0] == m.instructionDiscriminator
  {
    Pow256Small();
    var tag :- EncodeUInt(m.instructionDiscriminator, 1, "instructionDiscriminator");
    var args :- EncodeArgs(m.createMetadataAccountArgsV3);
    Ok(tag + args)
  }

  /** METADAT_STRUCTURE.parse: the record read from the front of the input; trailing bytes are ignored. */
  function DecodeMetadataInstruction(bs: seq<Byte>): (r: Result<MetadataInstruction, Error>)
    ensures r.Ok? ==> |bs| >= 1 && r.value.instructionDiscriminator == bs[0]
    ensures r.Ok? <==> |bs| >= 1 && DecodeArgs(bs[1..]).Ok?
  {
    var (tag, t1) :- DecodeUInt(bs, 1);
    var (args, _) :- DecodeArgs(t1);
    Ok(MetadataInstruction(tag, args))
  }

  /** Decoding an encoded metadata instruction gives the record back. */
  lemma MetadataRoundTrip(m: MetadataInstruction)
    requires EncodeMetadataInstruction(m).Ok?
    ensures DecodeMetadataInstruction(EncodeMetadataInstruction(m).value) == Ok(m)
  {
    Pow256Small();
    var tag := LittleEndian(m.instructionDiscriminator, 1);
    var args := EncodeArgs(m.createMetadataAccountArgsV3).value;
    assert EncodeMetadataInstruction(m).value == tag + (args + []);
    DecodeUIntOf(m.instructionDiscriminator, 1, args + []);
    DecodeArgsOf(m.createMetadataAccountArgsV3, []);
  }
}

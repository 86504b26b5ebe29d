/** The cartridge image and the header fields read from it: the title, the
    hardware type and the ROM size. The image is never modified. */
module Cart {
  import opened Wrappers

  /** First byte of the title in the header. */
  const TitleStart: nat := 0x0134
  /** Last byte the title scan may read. */
  const TitleLast: nat := 0x0142
  /** The longest title the scan can return. */
  const TitleMaxLength: nat := TitleLast - TitleStart + 1
  /** Header byte holding the cartridge hardware type. */
  const CartTypeAt: nat := 0x0147
  /** Header byte holding the ROM-size code. */
  const RomSizeAt: nat := 0x0148
  /** Size of one ROM bank. */
  const RomBankSize: nat := 1024 * 16

  datatype CartType = RomMbc5RamBatt | Unsupported

  /** A load-time fatal error: the ROM-size code has no known size. */
  datatype CartError = UnsupportedRomSize(code: bv8)

  /** `t` is the title of the image `bytes`: the bytes from `TitleStart` on,
      up to and excluding the first zero byte, and never past `TitleLast`. */
  ghost predicate IsTitle(bytes: seq<bv8>, t: seq<bv8>)
  {
    && |t| <= TitleMaxLength
    && TitleStart + |t| <= |bytes|
    && t == bytes[TitleStart..TitleStart + |t|]
    && 0 !in t
    && (|t| == TitleMaxLength || (TitleStart + |t| < |bytes| && bytes[TitleStart + |t|] == 0))
  }

  /** The title scan stays inside the image: either the whole title field is
      present, or a zero byte ends the title before the image ends. */
  predicate TitleReadable(bytes: seq<bv8>)
  {
    |bytes| > TitleLast || (TitleStart < |bytes| && 0 in bytes[TitleStart..])
  }

  /** The raw ROM image of a cartridge. */
  datatype Cart = Cart(bytes: seq<bv8>) {

    /** The title stored in the header, as bytes. */
    method Name() returns (name: seq<bv8>)
      requires TitleReadable(bytes)
      ensures IsTitle(bytes, name)
    {
      name := [];
      var offset := TitleStart;
      while offset <= TitleLast
        invariant TitleStart <= offset <= TitleLast + 1
        invariant offset == TitleStart + |name| <= |bytes|
        invariant name == bytes[TitleStart..offset]
        invariant 0 !in name
        invariant |bytes| > TitleLast || (offset < |bytes| && 0 in bytes[offset..])
      {
        var byte := bytes[offset];
        if byte == 0 {
          break;
        }
        assert bytes[offset..] == [byte] + bytes[offset + 1..];
        name := name + [byte];
        offset := offset + 1;
      }
    }

    /** The cartridge hardware type; only one type is recognised. */
    function Type(): (t: CartType)
      requires CartTypeAt < |bytes|
      ensures t == RomMbc5RamBatt <==> bytes[CartTypeAt] == 0x1B
    {
      if bytes[CartTypeAt] == 0x1B then RomMbc5RamBatt else Unsupported
    }

    /** The ROM size in bytes declared by the header; only code 0x05 (1 MiB)
        is known, every other code is a fatal error naming the code. */
    function RomSize(): (r: Result<nat, CartError>)
      requires RomSizeAt < |bytes|
      ensures r.Ok? <==> bytes[RomSizeAt] == 0x05
      ensures r.Ok? ==> r.value == 1_048_576
      ensures r.Err? ==> r.error == UnsupportedRomSize(bytes[RomSizeAt])
    {
      if bytes[RomSizeAt] == 0x05 then Ok(1024 * 1024) else Err(UnsupportedRomSize(bytes[RomSizeAt]))
    }

    /** The number of 16 KiB ROM banks; fails exactly when the ROM size does. */
    function BankCount(): (r: Result<nat, CartError>)
      requires RomSizeAt < |bytes|
      ensures r.Ok? <==> RomSize().Ok?
      ensures r.Ok? ==> r.value * RomBankSize == RomSize().value && r.value == 64
      ensures r.Err? ==> r.error == RomSize().error
    {
      match RomSize()
      case Ok(size) => Ok(size / RomBankSize)
      case Err(e) => Err(e)
    }
  }

  /** Every byte of a title is a non-zero byte of the header. */
  lemma TitleByteIsNonZero(bytes: seq<bv8>, t: seq<bv8>, k: nat)
    requires IsTitle(bytes, t) && k < |t|
    ensures bytes[TitleStart + k] == t[k] != 0
  {
  }

  /** The header determines the title: at most one byte sequence is a title. */
  lemma {:induction false} TitleIsUnique(bytes: seq<bv8>, t: seq<bv8>, u: seq<bv8>)
    requires IsTitle(bytes, t) && IsTitle(bytes, u)
    ensures t == u
  {
    if |t| < |u| {
      TitleByteIsNonZero(bytes, u, |t|);
      assert false;
    } else if |u| < |t| {
      TitleByteIsNonZero(bytes, t, |u|);
      assert false;
    }
  }

  /** A title whose first byte is zero is empty, and every title is a prefix
      of the fixed header slice. */
  lemma TitleShape(bytes: seq<bv8>, t: seq<bv8>)
    requires |bytes| > TitleLast && IsTitle(bytes, t)
    ensures t <= bytes[TitleStart..TitleLast + 1]
    ensures bytes[TitleStart] == 0 ==> t == []
  {
  }
}

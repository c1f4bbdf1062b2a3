/** The cursors of the CBOR library, as far as codec.rs uses them: a decoder walks its input, an
    encoder appends to its output. */
module Cursor {
  import opened Bytes
  import opened Utf8
  import opened Cbor
  import opened Model

  /** A read at a cursor had the outcome of parser result `p`; on success `rest` is what is left. */
  ghost predicate Agrees<T(!new)>(r: Result<T>, rest: seq<Byte>, p: Parsed<T>) {
    match p
    case Got(v, s) => r == Ok(v) && rest == s
    case Fail => r == Err(InvalidVaultPayload)
  }

  lemma ReadStringSuffix(major: nat, s: seq<Byte>)
    requires ReadString(major, s).Got?
    ensures IsSuffix(ReadString(major, s).rest, s)
  {
    hide ReadHead;
    ReadHeadSuffix(s);
  }

  class Decoder {
    const input: seq<Byte>
    var position: nat

    ghost predicate Valid() reads this`position { position <= |input| }

    ghost function Rest(): seq<Byte>
      reads this`position
      requires Valid()
    {
      input[position..]
    }

    constructor (input: seq<Byte>)
      ensures this.input == input && position == 0
    {
      this.input := input;
      position := 0;
    }

    /** Moves to what `p` leaves unread. */
    method Take<T(!new)>(p: Parsed<T>) returns (r: Result<T>)
      requires Valid() && (p.Got? ==> IsSuffix(p.rest, Rest()))
      modifies this
      ensures Valid() && Agrees(r, Rest(), p)
      ensures old(position) <= position
    {
      if p.Fail? { return Err(InvalidVaultPayload); }
      position := |input| - |p.rest|;
      return Ok(p.value);
    }

    method ReadHeadHere() returns (r: Result<Head>)
      requires Valid()
      modifies this
      ensures Valid() && Agrees(r, Rest(), ReadHead(old(Rest())))
    {
      hide ReadHead, IsSuffix, Agrees;
      var p := ReadHead(input[position..]);
      if p.Got? { ReadHeadSuffix(input[position..]); }
      r := Take(p);
    }

    method U64() returns (r: Result<nat>)
      requires Valid()
      modifies this
      ensures Valid() && Agrees(r, Rest(), ReadUint(old(Rest())))
    {
      hide ReadHead, IsSuffix, Agrees;
      var p := ReadUint(input[position..]);
      if p.Got? { ReadHeadSuffix(input[position..]); }
      r := Take(p);
    }

    /** A definite array or map length. */
    method Length(major: nat) returns (r: Result<nat>)
      requires Valid()
      modifies this
      ensures Valid() && Agrees(r, Rest(), ReadLength(major, old(Rest())))
    {
      hide ReadHead, IsSuffix, Agrees;
      var p := ReadLength(major, input[position..]);
      if p.Got? { ReadHeadSuffix(input[position..]); }
      r := Take(p);
    }

    method ByteString() returns (r: Result<seq<Byte>>)
      requires Valid()
      modifies this
      ensures Valid() && Agrees(r, Rest(), ReadBytes(old(Rest())))
    {
      hide ReadString, IsSuffix, Agrees;
      var p := ReadBytes(input[position..]);
      if p.Got? { ReadStringSuffix(2, input[position..]); }
      r := Take(p);
    }

    method Str() returns (r: Result<seq<Byte>>)
      requires Valid()
      modifies this
      ensures Valid() && Agrees(r, Rest(), ReadText(old(Rest())))
    {
      hide ReadString, IsSuffix, Agrees, WellFormed;
      var p := ReadText(input[position..]);
      if p.Got? { ReadStringSuffix(3, input[position..]); }
      r := Take(p);
    }

    /** The `n` raw bytes after a string head. */
    method Raw(n: nat) returns (r: Result<seq<Byte>>)
      requires Valid() && n <= |Rest()|
      modifies this
      ensures Valid() && r == Ok(old(Rest())[..n]) && Rest() == old(Rest())[n..]
    {
      r := Ok(input[position..][..n]);
      position := position + n;
    }

    /** Steps over one item and returns its bytes. */
    method SkipItem() returns (r: Result<seq<Byte>>)
      requires Valid()
      modifies this
      ensures Valid()
      ensures var s := old(Rest());
              match Skip(s, 1)
              case None => r == Err(InvalidVaultPayload)
              case Some(t) => |t| <= |s| && r == Ok(s[..|s| - |t|]) && Rest() == t
    {
      hide Skip;
      var s := input[position..];
      var o := Skip(s, 1);
      if o.None? { return Err(InvalidVaultPayload); }
      SkipSuffix(s, 1);
      position := |input| - |o.value|;
      return Ok(s[..|s| - |o.value|]);
    }
  }

  class Encoder {
    var output: seq<Byte>

    constructor ()
      ensures output == []
    {
      output := [];
    }

    /** An integer, a length or any other head, in its shortest form. */
    method PutHead(major: nat, n: nat)
      requires major < 8 && n <= U64_MAX
      modifies this
      ensures output == old(output) + EncodeHead(major, n)
    {
      hide EncodeHead;
      output := output + EncodeHead(major, n);
    }

    method PutString(major: nat, b: seq<Byte>)
      requires major < 8 && |b| <= U64_MAX
      modifies this
      ensures output == old(output) + EncodeString(major, b)
    {
      hide EncodeHead;
      output := output + EncodeString(major, b);
    }

    method PutRaw(b: seq<Byte>)
      modifies this
      ensures output == old(output) + b
    {
      output := output + b;
    }
  }
}

/** The two readers in the shape of the program: objects with a position that every read advances.
    Both are proved against `Encoding.ReadUint`, `ReadBytes` and `ReadString`, hence agree with each
    other on every input, on the value as well as on failure. */
module Decoders {
  import opened Encoding

  datatype Outcome<+T> = Ok(value: T) | Err | Panic

  function OfUint(r: UintResult): Outcome<u64> {
    if r.Uint? then Ok(r.value) else Err
  }

  function OfField(r: FieldResult): Outcome<Bytes> {
    match r
    case Field(bs, _) => Ok(bs)
    case FieldError(_) => Err
    case FieldPanic => Panic
  }

  /** The loop that the two implementations share in substance: the state is the position, the bits
      so far and the shift. */
  ghost predicate ReadingOn(data: Bytes, start: nat, pos: nat, shift: nat, acc: u64) {
    shift < 64 && ReadUint(data, start) == ReadUintFrom(data, pos, shift, acc)
  }

  class Decoder {
    const data: Bytes
    var pos: nat

    constructor (data: Bytes)
      ensures this.data == data && pos == 0
    {
      this.data := data;
      pos := 0;
    }

    method SetPosition(p: nat)
      modifies this
      ensures pos == p
    {
      pos := p;
    }

    method HasContent() returns (more: bool)
      ensures more <==> pos < |data|
    {
      more := pos < |data|;
    }

    method Remaining() returns (rest: Bytes)
      requires pos <= |data|
      ensures data == data[..pos] + rest
    {
      rest := data[pos..];
    }

    method ReadVarUint() returns (r: Outcome<u64>)
      modifies this
      ensures r == OfUint(ReadUint(data, old(pos)))
      ensures pos == ReadUint(data, old(pos)).next
    {
      hide Or64, Shl64;
      var result: u64 := 0;
      var shift := 0;
      while true
        invariant ReadingOn(data, old(pos), pos, shift, result)
        decreases 64 - shift
      {
        if pos >= |data| {
          return Err;
        }
        var b := data[pos];
        pos := pos + 1;
        result := Or64(result, Shl64(b % 128, shift));
        if b < 128 {
          return Ok(result);
        }
        shift := shift + 7;
        if shift >= 64 {
          return Err;
        }
      }
    }

    method ReadVarBytes() returns (r: Outcome<Bytes>)
      modifies this
      ensures r == OfField(ReadBytes(data, old(pos)))
      ensures ReadBytes(data, old(pos)).Field? ==> pos == ReadBytes(data, old(pos)).next
      ensures ReadBytes(data, old(pos)).FieldError? ==> pos == ReadBytes(data, old(pos)).next
    {
      hide ReadUint;
      var len := ReadVarUint();
      if !len.Ok? {
        return Err;
      }
      if pos + len.value >= TWO_64 {
        return Panic;
      }
      if pos + len.value > |data| {
        return Err;
      }
      r := Ok(data[pos..pos + len.value]);
      pos := pos + len.value;
    }

    method ReadVarString() returns (r: Outcome<Bytes>)
      modifies this
      ensures r == OfField(ReadString(data, old(pos)))
      ensures ReadString(data, old(pos)).Field? ==> pos == ReadString(data, old(pos)).next
      ensures ReadString(data, old(pos)).FieldError? ==> pos == ReadString(data, old(pos)).next
    {
      hide ReadUint, ValidUtf8;
      var len := ReadVarUint();
      if !len.Ok? {
        return Err;
      }
      if pos + len.value >= TWO_64 {
        return Panic;
      }
      if pos + len.value > |data| || !ValidUtf8(data[pos..pos + len.value]) {
        return Err;
      }
      r := Ok(data[pos..pos + len.value]);
      pos := pos + len.value;
    }

    /** Looks ahead and comes back, also after an error. */
    method PeekVarBytes() returns (r: Outcome<Bytes>)
      modifies this
      ensures r == OfField(ReadBytes(data, pos))
      ensures pos == old(pos)
    {
      var saved := pos;
      r := ReadVarBytes();
      pos := saved;
    }

    method ReadExact(n: nat) returns (r: Outcome<Bytes>)
      modifies this
      ensures r.Ok? <==> old(pos) + n <= |data|
      ensures r.Ok? ==> |r.value| == n && r.value <= data[old(pos)..] && pos == old(pos) + n
      ensures !r.Ok? ==> r.Err? && pos == old(pos)
    {
      if pos + n > |data| {
        return Err;
      }
      r := Ok(data[pos..pos + n]);
      pos := pos + n;
    }
  }

  /** The reader of the common crate, over a cursor. */
  class Cursor {
    const data: Bytes
    var position: nat

    constructor (data: Bytes)
      ensures this.data == data && position == 0
    {
      this.data := data;
      position := 0;
    }

    /** `read_exact` of one byte; when it fails the cursor is left at the end. */
    method ReadByte() returns (b: Outcome<byte>)
      modifies this
      ensures b.Ok? <==> old(position) < |data|
      ensures b.Ok? ==> b.value == data[old(position)] && position == old(position) + 1
      ensures !b.Ok? ==> b.Err?
    {
      if position >= |data| {
        position := |data|;
        return Err;
      }
      b := Ok(data[position]);
      position := position + 1;
    }

    method ReadVarUint() returns (r: Outcome<u64>)
      modifies this
      ensures r == OfUint(ReadUint(data, old(position)))
      ensures r.Ok? ==> position == ReadUint(data, old(position)).next
    {
      hide Or64, Shl64;
      var result: u64 := 0;
      var shift := 0;
      while true
        invariant ReadingOn(data, old(position), position, shift, result)
        decreases 64 - shift
      {
        var b := ReadByte();
        if !b.Ok? {
          return Err;
        }
        result := Or64(result, Shl64(b.value % 128, shift));
        if b.value < 128 {
          return Ok(result);
        }
        shift := shift + 7;
        if shift >= 64 {
          return Err;
        }
      }
    }

    method ReadVarString() returns (r: Outcome<Bytes>)
      modifies this
      ensures r == OfField(ReadString(data, old(position)))
      ensures r.Ok? ==> position == ReadString(data, old(position)).next
    {
      hide ReadUint, ValidUtf8;
      var len := ReadVarUint();
      if !len.Ok? {
        return Err;
      }
      var p := position;
      if p + len.value >= TWO_64 {
        return Panic;
      }
      if p + len.value > |data| || !ValidUtf8(data[p..p + len.value]) {
        return Err;
      }
      position := p + len.value;
      r := Ok(data[p..position]);
    }
  }
}

/** The bytecode instruction set (vm/src/opcode.rs): encoding into a byte
    vector, decoding at an offset, instruction sizes and disassembly. */
module VmOpCode {
  import opened Wrappers

  newtype byte = x: int | 0 <= x < 256

  datatype OpCode = Return | Constant(index: byte) | Negate | Add | Subtract | Multiply | Divide

  datatype RuntimeError = UnknownOpcode(code: byte)

  /** The bytes `write_to` appends for `op`. */
  function Encode(op: OpCode): (bytes: seq<byte>)
    ensures |bytes| == Size(op)
  {
    match op
    case Return => [0]
    case Constant(i) => [1, i]
    case Negate => [2]
    case Add => [3]
    case Subtract => [4]
    case Multiply => [5]
    case Divide => [6]
  }

  function Size(op: OpCode): (n: nat)
    ensures n == (if op.Constant? then 2 else 1)
  {
    match op
    case Return => 1
    case Constant(_) => 2
    case Negate => 1
    case Add => 1
    case Subtract => 1
    case Multiply => 1
    case Divide => 1
  }

  /** `place[offset]` exists, and so does the operand byte of a `Constant`. */
  predicate Decodable(place: seq<byte>, offset: nat) {
    offset < |place| && (place[offset] == 1 ==> offset + 1 < |place|)
  }

  /** Decode the instruction that starts at `offset`. */
  function TryFrom(place: seq<byte>, offset: nat): (r: Result<OpCode, RuntimeError>)
    requires Decodable(place, offset)
    ensures r.Err? <==> place[offset] > 6
    ensures r.Err? ==> r.error == UnknownOpcode(place[offset])
    ensures r.Ok? ==> offset + Size(r.value) <= |place|
  {
    match place[offset]
    case 0 => Ok(Return)
    case 1 => Ok(Constant(place[offset + 1]))
    case 2 => Ok(Negate)
    case 3 => Ok(Add)
    case 4 => Ok(Subtract)
    case 5 => Ok(Multiply)
    case 6 => Ok(Divide)
    case x => Err(UnknownOpcode(x))
  }

  /** A growable byte vector, the `Vec<u8>` instructions are written into. */
  class ByteVec {
    var bytes: seq<byte>

    constructor ()
      ensures bytes == []
    {
      bytes := [];
    }

    /** `write_to`: push the encoding of `op`. */
    method WriteTo(op: OpCode)
      modifies this
      ensures bytes == old(bytes) + Encode(op)
      ensures |bytes| == |old(bytes)| + Size(op)
    {
      match op
      case Return => bytes := bytes + [0];
      case Constant(i) => bytes := bytes + [1]; bytes := bytes + [i];
      case Negate => bytes := bytes + [2];
      case Add => bytes := bytes + [3];
      case Subtract => bytes := bytes + [4];
      case Multiply => bytes := bytes + [5];
      case Divide => bytes := bytes + [6];
    }
  }

  /** Decoding where an encoding was written gives back the instruction,
      whatever surrounds it. */
  lemma RoundTrip(op: OpCode, before: seq<byte>, after: seq<byte>)
    ensures Decodable(before + Encode(op) + after, |before|)
    ensures TryFrom(before + Encode(op) + after, |before|) == Ok(op)
  {
    var place := before + Encode(op) + after;
    assert place[|before|] == Encode(op)[0];
    if op.Constant? {
      assert place[|before| + 1] == Encode(op)[1];
    }
  }

  /** Distinct instructions have distinct encodings. */
  lemma EncodeInjective(a: OpCode, b: OpCode)
    requires Encode(a) == Encode(b)
    ensures a == b
  {
    RoundTrip(a, [], []);
    RoundTrip(b, [], []);
    assert [] + Encode(a) + [] == Encode(a);
    assert [] + Encode(b) + [] == Encode(b);
  }

  /** Decoding consumes the whole encoding: a sequence of instructions
      written one after another is read back instruction by instruction. */
  lemma DecodeSequence(ops: seq<OpCode>, before: seq<byte>, i: nat)
    requires i < |ops|
    ensures Decodable(before + EncodeAll(ops), |before| + |EncodeAll(ops[..i])|)
    ensures TryFrom(before + EncodeAll(ops), |before| + |EncodeAll(ops[..i])|) == Ok(ops[i])
  {
    EncodeAllSplit(ops, i);
    var rest := EncodeAll(ops[i + 1..]);
    assert before + EncodeAll(ops) == (before + EncodeAll(ops[..i])) + Encode(ops[i]) + rest;
    RoundTrip(ops[i], before + EncodeAll(ops[..i]), rest);
  }

  /** The bytes of several instructions written in order. */
  function EncodeAll(ops: seq<OpCode>): seq<byte> {
    if ops == [] then [] else EncodeAll(ops[..|ops| - 1]) + Encode(ops[|ops| - 1])
  }

  lemma {:induction false} EncodeAllSplit(ops: seq<OpCode>, i: nat)
    requires i < |ops|
    ensures EncodeAll(ops) == EncodeAll(ops[..i]) + Encode(ops[i]) + EncodeAll(ops[i + 1..])
    decreases |ops|
  {
    if i == |ops| - 1 {
      assert ops[..|ops| - 1] == ops[..i];
      assert ops[i + 1..] == [];
    } else {
      var init := ops[..|ops| - 1];
      EncodeAllSplit(init, i);
      assert init[..i] == ops[..i];
      assert init[i] == ops[i];
      assert init[i + 1..] == ops[i + 1..|ops| - 1];
      assert ops[i + 1..][..|ops[i + 1..]| - 1] == ops[i + 1..|ops| - 1];
      assert ops[i + 1..][|ops[i + 1..]| - 1] == ops[|ops| - 1];
      var head := EncodeAll(ops[..i]) + Encode(ops[i]);
      var middle := EncodeAll(ops[i + 1..|ops| - 1]);
      var last := Encode(ops[|ops| - 1]);
      assert EncodeAll(ops[i + 1..]) == middle + last;
      assert EncodeAll(ops) == head + middle + last;
      AppendAssoc(head, middle, last);
    }
  }

  lemma AppendAssoc(x: seq<byte>, y: seq<byte>, z: seq<byte>)
    ensures x + y + z == x + (y + z)
  {
  }

  /** Decimal digits of a natural number, as `format!("{}", n)` prints it:
      the digits read back as `n`, with no leading zero. */
  function NatToString(n: nat): (s: string)
    ensures |s| >= 1
    ensures forall k :: 0 <= k < |s| ==> '0' <= s[k] <= '9'
    ensures DigitsValue(s) == n
    ensures s[0] == '0' ==> n == 0
    decreases n
  {
    if n < 10 then
      assert DigitsValue([DigitChar(n)]) == DigitsValue([]) * 10 + n by {
        assert [DigitChar(n)][..0] == [];
      }
      [DigitChar(n)]
    else
      var init := NatToString(n / 10);
      var s := init + [DigitChar(n % 10)];
      assert s[..|s| - 1] == init;
      assert s[0] == init[0];
      s
  }

  /** The number a string of decimal digits spells. */
  function DigitsValue(s: string): nat
    requires forall k :: 0 <= k < |s| ==> '0' <= s[k] <= '9'
  {
    if s == [] then 0 else DigitsValue(s[..|s| - 1]) * 10 + (s[|s| - 1] as int - '0' as int)
  }

  function DigitChar(d: nat): (c: char)
    requires d < 10
    ensures '0' <= c <= '9' && c as int - '0' as int == d
  {
    ['0', '1', '2', '3', '4', '5', '6', '7', '8', '9'][d]
  }

  /** The mnemonic of each instruction. */
  function Mnemonic(op: OpCode): string {
    match op
    case Return => "RETURN"
    case Constant(_) => "CONSTANT"
    case Negate => "NEGATE"
    case Add => "ADD"
    case Subtract => "SUBTRACT"
    case Multiply => "MULTIPLY"
    case Divide => "DIVIDE"
  }

  /** `disassemble`: the instruction's size, its mnemonic and its operand
      text; a constant shows its index and the value it names, rendered by
      `show` (number formatting is not modelled). A `Constant` whose index
      is past the constant table is an index panic in the source, `None`
      here. */
  function Disassemble<V>(op: OpCode, constants: seq<V>, show: V -> string): (row: Option<(nat, string, string)>)
    ensures row.None? <==> op.Constant? && (op.index as nat) >= |constants|
    ensures row.Some? ==> row.value.0 == Size(op) && row.value.1 == Mnemonic(op)
    ensures row.Some? && !op.Constant? ==> row.value.2 == ""
    ensures row.Some? && op.Constant? ==>
              row.value.2 == NatToString(op.index as nat) + " (=" + show(constants[op.index]) + ")"
  {
    match op
    case Return => Some((1, "RETURN", ""))
    case Constant(i) =>
      if (i as nat) < |constants| then Some((2, "CONSTANT", NatToString(i as nat) + " (=" + show(constants[i]) + ")"))
      else None
    case Negate => Some((1, "NEGATE", ""))
    case Add => Some((1, "ADD", ""))
    case Subtract => Some((1, "SUBTRACT", ""))
    case Multiply => Some((1, "MULTIPLY", ""))
    case Divide => Some((1, "DIVIDE", ""))
  }

  /** The disassembly names tell the instruction kinds apart. */
  lemma MnemonicsDistinct(a: OpCode, b: OpCode)
    requires Mnemonic(a) == Mnemonic(b)
    ensures a.Constant? <==> b.Constant?
    ensures !a.Constant? ==> a == b
  {
  }
}

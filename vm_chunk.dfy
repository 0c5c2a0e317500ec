/** The earlier chunk (vm/src/chunk.rs): code bytes only, a one-instruction
    set, and a disassembler that walks the code one byte at a time into a
    table of rows. */
module VmChunk {
  import VmOpCode

  type byte = VmOpCode.byte

  /** The only instruction of this generation. */
  datatype OldOpCode = Return

  /** `try_from`: byte 0 is `Return`; any other byte reaches
      `unimplemented!()`, which the model shows as `Unimplemented`. */
  datatype Decoded = Decoded(op: OldOpCode) | Unimplemented

  function TryFrom(value: byte): (d: Decoded)
    ensures d.Decoded? <==> value == 0
  {
    if value == 0 then Decoded(Return) else Unimplemented
  }

  /** `Display` of an instruction. */
  function Show(op: OldOpCode): (s: string)
    ensures s == "RETURN"
  {
    match op
    case Return => "RETURN"
  }

  datatype Chunk = Chunk(code: seq<byte>)

  /** `Chunk::new`. */
  function NewChunk(): (c: Chunk)
    ensures c.code == [0] && TryFrom(c.code[0]) == Decoded(Return)
  {
    Chunk([0])
  }

  /** A table row: offset, instruction, operands. */
  datatype Row = Row(offset: nat, insn: string, args: string)

  /** The table the disassembler fills. */
  class Table {
    var rows: seq<Row>

    constructor ()
      ensures rows == []
    {
      rows := [];
    }
  }

  /** What `disassemble` produces: the table it prints, or the offset of
      the byte whose decoding panicked. */
  datatype Disassembly = Printed(title: string, rows: seq<Row>) | PanickedAt(offset: nat)

  /** `disassemble_instruction`: one row for the byte at `offset`, and the
      next offset. */
  method DisassembleInstruction(chunk: Chunk, table: Table, offset: nat) returns (next: nat, ok: bool)
    requires offset < |chunk.code|
    modifies table
    ensures ok <==> chunk.code[offset] == 0
    ensures ok ==> table.rows == old(table.rows) + [Row(offset, "RETURN", "")] && next == offset + 1
    ensures !ok ==> table.rows == old(table.rows)
  {
    var insn := TryFrom(chunk.code[offset]);
    if insn.Unimplemented? {
      return offset, false;
    }
    table.rows := table.rows + [Row(offset, Show(insn.op), "")];
    next := offset + 1;
    ok := true;
  }

  /** `disassemble`: a row per offset 0, 1, ... in order, or a panic at the
      first byte other than 0. */
  method Disassemble(chunk: Chunk, title: string) returns (d: Disassembly)
    ensures (forall i :: 0 <= i < |chunk.code| ==> chunk.code[i] == 0) <==> d.Printed?
    ensures d.Printed? ==> d.title == title && |d.rows| == |chunk.code|
    ensures d.Printed? ==> forall i :: 0 <= i < |d.rows| ==> d.rows[i] == Row(i, "RETURN", "")
    ensures d.PanickedAt? ==> d.offset < |chunk.code| && chunk.code[d.offset] != 0
                              && forall i :: 0 <= i < d.offset ==> chunk.code[i] == 0
  {
    var table := new Table();
    var offset := 0;
    while offset < |chunk.code|
      invariant offset <= |chunk.code| && |table.rows| == offset
      invariant forall i :: 0 <= i < offset ==> chunk.code[i] == 0 && table.rows[i] == Row(i, "RETURN", "")
      decreases |chunk.code| - offset
    {
      var next, ok := DisassembleInstruction(chunk, table, offset);
      if !ok {
        return PanickedAt(offset);
      }
      offset := next;
    }
    d := Printed(title, table.rows);
  }
}

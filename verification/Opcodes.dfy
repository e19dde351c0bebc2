/** The static opcode table: operand category and block termination of every opcode byte. */
module Opcodes {
  import opened Words

  datatype Category =
    | Invalid
    | NoArg
    | OneImm
    | OneRegExtImm
    | TwoImm
    | OneOffset
    | OneRegOneImm
    | OneRegTwoImm
    | OneRegImmOff
    | TwoReg
    | TwoRegOneImm
    | TwoRegOneOff
    | TwoRegTwoImm
    | ThreeReg

  const TRAP: byte := 0
  const FALLTHROUGH: byte := 1
  const ECALLI: byte := 10
  const JUMP: byte := 40
  const JUMP_IND: byte := 50
  const LOAD_IMM: byte := 51
  const LOAD_IMM_JUMP: byte := 80
  const MOVE_REG: byte := 100
  const SBRK: byte := 101
  const ADD_IMM_64: byte := 149
  const LOAD_IMM_JUMP_IND: byte := 180
  const ADD_64: byte := 200

  function CategoryOf(op: byte): Category
  {
    if op <= 1 then NoArg
    else if op == 10 then OneImm
    else if op == 20 then OneRegExtImm
    else if 30 <= op <= 33 then TwoImm
    else if op == 40 then OneOffset
    else if 50 <= op <= 62 then OneRegOneImm
    else if 70 <= op <= 73 then OneRegTwoImm
    else if 80 <= op <= 90 then OneRegImmOff
    else if 100 <= op <= 111 then TwoReg
    else if 120 <= op <= 161 then TwoRegOneImm
    else if 170 <= op <= 175 then TwoRegOneOff
    else if op == 180 then TwoRegTwoImm
    else if 190 <= op <= 230 then ThreeReg
    else Invalid
  }

  predicate IsValidOpcode(op: byte) { CategoryOf(op) != Invalid }

  predicate IsBlockTerminator(op: byte)
  {
    op <= 1 || op == JUMP || op == JUMP_IND || 80 <= op <= 90 || 170 <= op <= 175 || op == LOAD_IMM_JUMP_IND
  }
}

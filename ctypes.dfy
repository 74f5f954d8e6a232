/**
 * The C integer behaviour the BlueZ sources rely on: conversion to the
 * unsigned fixed-width types (reduction modulo 2^n), signed reading of a
 * byte, division that truncates toward zero, the little-endian 16-bit put
 * and the errno codes used.
 */
module CTypes {

  newtype u8 = x: int | 0 <= x < 0x100
  newtype u16 = x: int | 0 <= x < 0x1_0000

  /** errno is set to a positive code whenever a libc call reports failure. */
  type Errno = e: int | e > 0 witness 1

  /** EINVAL as defined by Linux. */
  const EINVAL: int := 22

  /** Conversion of any integer to uint8_t. */
  function ToU8(x: int): (r: u8)
    ensures (r as int - x) % 0x100 == 0
    ensures 0 <= x < 0x100 ==> r as int == x
  {
    (x % 0x100) as u8
  }

  /** Conversion of any integer to uint16_t. */
  function ToU16(x: int): (r: u16)
    ensures (r as int - x) % 0x1_0000 == 0
    ensures 0 <= x < 0x1_0000 ==> r as int == x
  {
    (x % 0x1_0000) as u16
  }

  /** The value of a uint8_t when read back as an int8_t (two's complement). */
  function ToInt8(b: u8): (r: int)
    ensures -128 <= r < 128
    ensures (r - b as int) % 0x100 == 0
  {
    if b < 128 then b as int else b as int - 0x100
  }

  /** A byte that holds x modulo 2^8 reads back as x whenever x fits in an int8_t. */
  lemma ToInt8OfToU8(x: int)
    requires -128 <= x < 128
    ensures ToInt8(ToU8(x)) == x
  {
  }

  /** C's integer division `a / d`, which truncates toward zero, for a positive divisor. */
  function CDiv(a: int, d: int): (q: int)
    requires d > 0
    ensures a >= 0 ==> q >= 0 && q * d <= a < q * d + d
    ensures a < 0 ==> q <= 0 && q * d - d < a <= q * d
  {
    if a >= 0 then a / d else -((-a) / d)
  }

  /** att_put_u16: the 16-bit value stored least significant byte first. */
  function PutLe16(v: u16): (r: seq<u8>)
    ensures |r| == 2
    ensures r[0] as int + 0x100 * r[1] as int == v as int
  {
    [(v % 0x100) as u8, (v / 0x100) as u8]
  }

  /** att_get_u16, the reader that the Bluetooth peer applies. */
  function GetLe16(b0: u8, b1: u8): u16
  {
    (b0 as int + 0x100 * b1 as int) as u16
  }

  lemma GetPutLe16(v: u16)
    ensures GetLe16(PutLe16(v)[0], PutLe16(v)[1]) == v
  {
  }
}

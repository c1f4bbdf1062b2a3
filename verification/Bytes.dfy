/** Bytes, saturating counters and the small option type shared by every component. */
module Bytes {
  type Byte = x: int | 0 <= x < 256

  datatype Option<+T> = None | Some(value: T)

  const U32_MAX: nat := 0xFFFF_FFFF
  const U64_MAX: nat := 0xFFFF_FFFF_FFFF_FFFF

  /** The value of a `u64` counter that only ever uses `saturating_add`. */
  function Saturate(n: nat): nat {
    if n > U64_MAX then U64_MAX else n
  }

  function Flatten(parts: seq<seq<Byte>>): seq<Byte> {
    if parts == [] then [] else parts[0] + Flatten(parts[1..])
  }

  lemma {:induction false} FlattenAppend(parts: seq<seq<Byte>>, last: seq<Byte>)
    ensures Flatten(parts + [last]) == Flatten(parts) + last
  {
    if parts == [] {
      assert [last][1..] == [];
    } else {
      assert (parts + [last])[1..] == parts[1..] + [last];
      FlattenAppend(parts[1..], last);
    }
  }

  /** The bytes are this ASCII text. */
  predicate Spell(t: seq<Byte>, text: string) {
    |t| == |text| && forall i :: 0 <= i < |t| ==> t[i] as char == text[i]
  }

  /** `needle` occurs in `hay` at index `i`. */
  predicate OccursAt(hay: seq<Byte>, needle: seq<Byte>, i: nat) {
    i + |needle| <= |hay| && hay[i..i + |needle|] == needle
  }

  predicate Contains(hay: seq<Byte>, needle: seq<Byte>) {
    exists i: nat :: i <= |hay| && OccursAt(hay, needle, i)
  }

  lemma PrefixContains(hay: seq<Byte>, n: nat, needle: seq<Byte>)
    requires n <= |hay| && Contains(hay[..n], needle)
    ensures Contains(hay, needle)
  {
    var i: nat :| i <= n && OccursAt(hay[..n], needle, i);
    assert hay[i..i + |needle|] == hay[..n][i..i + |needle|];
    assert OccursAt(hay, needle, i);
  }
}

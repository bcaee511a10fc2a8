/**
 * The register space of one I2C device as seen by its driver: 256 byte
 * addresses. A burst transfer of `len` bytes at `addr` touches the addresses
 * `addr`, `addr + 1`, ... (wrapping at 256).
 */
module RegisterMap {
  import opened Bits

  /** A register address. */
  type Addr = x: int | 0 <= x < 256

  /** The contents of the 256 register addresses. */
  type Regs = s: seq<Byte> | |s| == 256 witness seq(256, i => 0)

  /** One completed bus write: the first register address and the bytes sent. */
  datatype Transfer = Write(addr: Addr, data: seq<Byte>)

  /** The address reached `i` bytes into a burst starting at `addr`. */
  function At(addr: int, i: int): (a: int)
    ensures 0 <= a < 256
  {
    (addr + i) % 256
  }

  /** Whether a burst of `len` bytes starting at `addr` touches address `a`. */
  predicate Covers(addr: int, len: nat, a: int)
  {
    (a - addr) % 256 < len
  }

  /** The bytes a burst read of `len` bytes at `addr` returns. */
  function Window(regs: Regs, addr: int, len: nat): (w: seq<Byte>)
    ensures |w| == len
  {
    seq(len, i requires 0 <= i < len => regs[At(addr, i)])
  }

  /**
   * The register space after a burst write of `data` at `addr`: reading the
   * same window back gives `data`, and no address outside it changes.
   */
  function Overwrite(regs: Regs, addr: int, data: seq<Byte>): (r: Regs)
    requires |data| <= 256
    ensures Window(r, addr, |data|) == data
    ensures forall a :: 0 <= a < 256 && !Covers(addr, |data|, a) ==> r[a] == regs[a]
  {
    Offsets(addr, |data|);
    seq(256, a requires 0 <= a < 256 =>
      if Covers(addr, |data|, a) then data[(a - addr) % 256] else regs[a])
  }

  /** The address `i` bytes into a burst lies `i` bytes past its start, modulo 256. */
  lemma Offsets(addr: int, len: nat)
    requires len <= 256
    ensures forall i :: 0 <= i < len ==> (At(addr, i) - addr) % 256 == i
  {
    forall i | 0 <= i < len ensures (At(addr, i) - addr) % 256 == i {
      var k := (addr + i) / 256;
      assert At(addr, i) == addr + i - 256 * k;
      assert At(addr, i) - addr == i + 256 * (-k);
    }
  }

  /** A one-byte write changes exactly that register. */
  lemma OverwriteOne(regs: Regs, addr: Addr, b: Byte)
    ensures Overwrite(regs, addr, [b]) == regs[addr := b]
  {
    var r := Overwrite(regs, addr, [b]);
    forall a | 0 <= a < 256 ensures r[a] == regs[addr := b][a] {
      if a == addr {
        assert Window(r, addr, 1)[0] == r[a];
      } else {
        assert !Covers(addr, 1, a);
      }
    }
  }

  /** A burst read one byte later sees the same bytes as the tail of a longer read. */
  lemma WindowShift(regs: Regs, addr: int, len: nat)
    ensures Window(regs, addr, len + 1)[1..] == Window(regs, addr + 1, len)
  {
    var w := Window(regs, addr, len + 1);
    var v := Window(regs, addr + 1, len);
    forall i | 0 <= i < len ensures v[i] == w[1..][i] {
      assert At(addr, i + 1) == At(addr + 1, i);
    }
  }

  /** A read starting one address before a burst write sees the written bytes after its first byte. */
  lemma ReadBeforeWrite(regs: Regs, addr: int, data: seq<Byte>)
    requires |data| <= 255
    ensures Window(Overwrite(regs, addr + 1, data), addr, |data| + 1)[1..] == data
  {
    WindowShift(Overwrite(regs, addr + 1, data), addr, |data|);
  }

  /** Writes whose data a burst can carry. */
  predicate Sendable(ws: seq<Transfer>)
  {
    forall i :: 0 <= i < |ws| ==> |ws[i].data| <= 256
  }

  /** The register space after the writes `ws`, oldest first. */
  function ApplyWrites(regs: Regs, ws: seq<Transfer>): Regs
    requires Sendable(ws)
    decreases |ws|
  {
    if ws == [] then regs
    else
      var w := ws[|ws| - 1];
      Overwrite(ApplyWrites(regs, ws[..|ws| - 1]), w.addr, w.data)
  }

  /** Applying one more write of a sequence of writes: the register space after the first `k + 1`. */
  lemma ApplyNext(regs: Regs, ws: seq<Transfer>, k: nat)
    requires Sendable(ws) && k < |ws|
    ensures Sendable(ws[..k]) && Sendable(ws[..k + 1])
    ensures ApplyWrites(regs, ws[..k + 1]) == Overwrite(ApplyWrites(regs, ws[..k]), ws[k].addr, ws[k].data)
  {
    assert ws[..k + 1][..k] == ws[..k];
  }

  /** Applying a write and then a sequence of writes is applying them all, first one first. */
  lemma {:induction false} ApplyFirst(regs: Regs, w: Transfer, ws: seq<Transfer>)
    requires |w.data| <= 256 && Sendable(ws)
    ensures Sendable([w] + ws)
    ensures ApplyWrites(regs, [w] + ws) == ApplyWrites(Overwrite(regs, w.addr, w.data), ws)
    decreases |ws|
  {
    if ws == [] {
      assert [w] + ws == [w] && [w][..0] == [];
    } else {
      var front := ws[..|ws| - 1];
      ApplyFirst(regs, w, front);
      assert ([w] + ws)[..|ws|] == [w] + front;
    }
  }

  /** A read of the first `k` bytes of a burst read's window is the start of that window. */
  lemma WindowPrefix(regs: Regs, addr: int, n: nat, k: nat)
    requires k <= n
    ensures Window(regs, addr, n)[..k] == Window(regs, addr, k)
  {}
}

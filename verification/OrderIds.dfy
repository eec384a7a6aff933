/** The gateway's order id is cut from the booking id's text, so bookings can share one. */
module OrderIds {
  import opened Wrappers
  import opened ByteStrings
  import opened Seqs
  import opened HexMerkle
  import opened ReleaseGate
  import opened Payments
  import opened CanonicalManifest

  lemma {:induction false} BigEndianConcat(a: Bytes, b: Bytes)
    ensures BigEndian(a + b) == BigEndian(a) * Pow256(|b|) + BigEndian(b)
  {
    if |a| == 0 {
      assert a + b == b;
    } else {
      BigEndianConcat(a[1..], b);
      assert (a + b)[1..] == a[1..] + b;
      Pow256Add(|a| - 1, |b|);
      Distribute(a[0], Pow256(|a| - 1), BigEndian(a[1..]), Pow256(|b|));
    }
  }

  lemma Distribute(d: int, p: int, r: int, q: int)
    ensures (d * p + r) * q == d * (p * q) + r * q
  {
  }

  lemma {:induction false} DecodeConcat(a: HexDigits, b: HexDigits)
    requires |a| % 2 == 0 && |b| % 2 == 0
    ensures Decode(a + b) == Decode(a) + Decode(b)
  {
    if |a| == 0 {
      assert a + b == b;
    } else {
      DecodeConcat(a[2..], b);
      assert (a + b)[2..] == a[2..] + b;
    }
  }

  lemma NineBytes()
    ensures Pow256(9) == 0x100_00000000_00000000
  {
    Pow256Values();
    Pow256Add(8, 1);
  }

  lemma Quotient(x: nat, y: nat, p: nat)
    requires y < p
    ensures (x * p + y) / p == x
  {
    var q, r := (x * p + y) / p, (x * p + y) % p;
    assert q * p + r == x * p + y;
    if q < x {
      LeadingDigit(q, x, p);
    } else if x < q {
      LeadingDigit(x, q, p);
    }
  }

  /** The order number is what the first fourteen digits write. */
  lemma OrderIsFront(s: string)
    requires UuidShape(s)
    ensures OrderOf(UuidValue(s)) == BigEndian(Decode(UuidDigits(s)[..14]))
  {
    var front: HexDigits, back: HexDigits := UuidDigits(s)[..14], UuidDigits(s)[14..];
    assert UuidDigits(s) == front + back;
    DecodeConcat(front, back);
    BigEndianConcat(Decode(front), Decode(back));
    NineBytes();
    Quotient(BigEndian(Decode(front)), BigEndian(Decode(back)), Pow256(9));
  }

  /** Two bookings have one order id exactly if the first fourteen hex digits of their ids agree,
      hyphens left out and letter case aside. */
  lemma SameOrderIff(s: string, t: string)
    requires UuidShape(s) && UuidShape(t)
    ensures OrderOf(UuidValue(s)) == OrderOf(UuidValue(t)) <==>
              ToLowerCase(UuidDigits(s)[..14]) == ToLowerCase(UuidDigits(t)[..14])
  {
    var d: HexDigits, e: HexDigits := UuidDigits(s)[..14], UuidDigits(t)[..14];
    OrderIsFront(s);
    OrderIsFront(t);
    HexOrderIsByteOrder(d, e);
    if OrderOf(UuidValue(s)) == OrderOf(UuidValue(t)) {
      BigEndianInjective(Decode(d), Decode(e));
    }
  }

  /** So of two such bookings only one can ever be collected. */
  lemma SharedOrderBlocks(rows: seq<Payment>, bookings: set<BookingId>, s: string, t: string, i: nat, amountInr: nat)
    requires UuidShape(s) && UuidShape(t) && RowsValid(rows)
    requires ToLowerCase(UuidDigits(s)[..14]) == ToLowerCase(UuidDigits(t)[..14])
    requires i < |rows| && rows[i].bookingId == UuidValue(s)
    ensures Collect(rows, bookings, UuidValue(t), amountInr).Err?
  {
    SameOrderIff(s, t);
    assert rows[i].orderId == OrderOf(UuidValue(t));
  }
}

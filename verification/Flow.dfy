/** Flow-control windows (section 6.9 of RFC 7540), kept in int32 as the server keeps them. */
module FlowControl {
  import opened GoInt

  /** Whether a window of size n accepts the increment k. The room left is itself an int32, so
      it wraps when n is negative. */
  predicate Accepts(n: Int32, k: Int32) {
    k <= Wrap32(MAX_INT32 - n)
  }

  function Grow(n: Int32, k: Int32): (r: Int32) {
    if Accepts(n, k) then Wrap32(n + k) else n
  }

  /** The rule RFC 7540 asks for: refuse exactly the sums above 2^31-1. */
  predicate WithinLimit(n: Int32, k: Int32) {
    n + k <= MAX_INT32
  }

  /** On a window that is not negative the test is the rule of the RFC and the sum is exact. */
  lemma AcceptsNonNegative(n: Int32, k: Int32)
    requires n >= 0 && n + k >= -0x8000_0000
    ensures Accepts(n, k) <==> WithinLimit(n, k)
    ensures Accepts(n, k) ==> Grow(n, k) == n + k
  {
  }

  /** On a negative window only increments whose sum leaves int32 at the bottom pass the test,
      so no sum that fits is ever accepted. */
  lemma AcceptsNegative(n: Int32, k: Int32)
    requires n < 0
    ensures Accepts(n, k) <==> n + k < -0x8000_0000
    ensures Accepts(n, k) ==> Grow(n, k) == n + k + TWO_32
  {
  }

  /** The test agrees with the RFC on a sum that fits in int32 or exceeds it at the top exactly
      when the window is not negative or the sum is too large. */
  lemma AcceptsIffRule(n: Int32, k: Int32)
    requires n + k >= -0x8000_0000
    ensures (Accepts(n, k) <==> WithinLimit(n, k)) <==> (n >= 0 || n + k > MAX_INT32)
  {
    if n >= 0 { AcceptsNonNegative(n, k); } else { AcceptsNegative(n, k); }
  }

  /** A window of -1 refuses the increment 1, though the sum is 0. */
  lemma NegativeWindowRefuses()
    ensures WithinLimit(-1, 1) && !Accepts(-1, 1)
  {
  }

  class Flow {
    var n: Int32
    /** The window of the connection, for the window of a stream. */
    const conn: Flow?

    /** A stream's window is bounded by the window of its connection. */
    function Available(): (r: Int32)
      reads this, conn
      ensures r <= n && (conn != null ==> r <= conn.n)
      ensures r == n || (conn != null && r == conn.n)
    {
      if conn != null && conn.n < n then conn.n else n
    }

    ghost function Scope(): set<Flow> {
      if conn == null then {this} else {this, conn}
    }

    ghost predicate Valid() {
      conn != this
    }

    constructor (conn: Flow?)
      ensures this.conn == conn && n == 0
    {
      this.conn := conn;
      n := 0;
    }

    /** Taking more than is available is a panic. */
    method Take(k: Int32)
      requires Valid() && 0 <= k <= Available()
      modifies Scope()`n
      ensures n == old(n) - k
      ensures conn != null ==> conn.n == old(conn.n) - k
    {
      n := n - k;
      if conn != null {
        conn.n := conn.n - k;
      }
    }

    method Add(k: Int32) returns (ok: bool)
      modifies this`n
      ensures ok <==> Accepts(old(n), k)
      ensures n == if ok then Wrap32(old(n) + k) else old(n)
      ensures old(n) >= 0 && old(n) + k >= -0x8000_0000 ==> (ok <==> old(n) + k <= MAX_INT32) && (ok ==> n == old(n) + k)
    {
      var remain := Wrap32(MAX_INT32 - n);
      if k > remain {
        return false;
      }
      n := Wrap32(n + k);
      return true;
    }
  }
}

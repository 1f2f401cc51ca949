/** The circular buffers of src/fx.rs: n slots, all 0.0 at first, written at a cursor that
    starts at 0 and advances by one modulo n per sample. */
module DelayLines {

  lemma MulSign(c: int, n: int)
    requires n > 0
    ensures c >= 1 ==> c * n >= n
    ensures c <= 0 ==> c * n <= 0
  {
  }

  /** The quotient and remainder of x by n are the only q, r with x == q * n + r and
      0 <= r < n. */
  lemma ModUnique(x: int, n: int, q: int, r: int)
    requires n > 0 && 0 <= r < n && x == q * n + r
    ensures x % n == r && x / n == q
  {
    var q', r' := x / n, x % n;
    var c := q - q';
    assert c * n == r' - r;
    MulSign(c, n);
  }

  /** Adding n does not move a position modulo n. */
  lemma ModAddPeriod(x: nat, n: nat)
    requires n > 0
    ensures (x + n) % n == x % n
  {
    ModUnique(x + n, n, x / n + 1, x % n);
  }

  /** A position reduced modulo n and then moved by b lands where the unreduced one does. */
  lemma ModOfSum(a: nat, b: nat, n: nat)
    requires n > 0
    ensures (a % n + b) % n == (a + b) % n
  {
    var s := a % n + b;
    var q1, q2 := a / n, s / n;
    assert a + b == q1 * n + s == q1 * n + q2 * n + s % n;
    assert q1 * n + q2 * n == (q1 + q2) * n;
    ModUnique(a + b, n, q1 + q2, s % n);
  }

  /** Two positions less than n apart are different slots. */
  lemma ModDistinct(a: nat, e: nat, n: nat)
    requires 0 < e < n
    ensures (a + e) % n != a % n
  {
    var q1, q2 := a / n, (a + e) / n;
    if (a + e) % n == a % n {
      var c := q2 - q1;
      assert c * n == e;
      MulSign(c, n);
    }
  }

  /** The buffer of n slots, all 0.0 at first, after the values ws have been written one
      per sample at the cursor positions 0, 1, 2, ... taken modulo n. */
  function Ring(n: nat, ws: seq<real>): (buf: seq<real>)
    requires n > 0
    ensures |buf| == n
  {
    if |ws| == 0 then seq(n, _ => 0.0)
    else Ring(n, ws[..|ws| - 1])[(|ws| - 1) % n := ws[|ws| - 1]]
  }

  /** Writing one more value changes only the slot under the cursor. */
  lemma RingWrite(n: nat, ws: seq<real>, w: real)
    requires n > 0
    ensures Ring(n, ws + [w]) == Ring(n, ws)[|ws| % n := w]
  {
    assert (ws + [w])[..|ws|] == ws;
  }

  /** The slot d places behind the cursor (1 <= d <= n) holds the value written d samples
      ago, or 0.0 when fewer than d values have been written. */
  lemma {:induction false} RingRead(n: nat, ws: seq<real>, d: nat)
    requires 0 < d <= n
    ensures Ring(n, ws)[(|ws| + n - d) % n] == if d <= |ws| then ws[|ws| - d] else 0.0
  {
    var k := |ws|;
    if k > 0 {
      var front := ws[..k - 1];
      ModAddPeriod(k - 1, n);
      if d > 1 {
        ModDistinct(k + n - d, d - 1, n);
        RingRead(n, front, d - 1);
      }
    }
  }

  /** The slot under the cursor holds the value written n samples ago: the one the next
      write overwrites. */
  lemma RingReadOldest(n: nat, ws: seq<real>)
    requires n > 0
    ensures Ring(n, ws)[|ws| % n] == if n <= |ws| then ws[|ws| - n] else 0.0
  {
    RingRead(n, ws, n);
    assert |ws| + n - n == |ws|;
  }

  /** RingReadOldest for a value v already known to be the one written n samples ago. */
  lemma RingHoldsOldest(n: nat, ws: seq<real>, v: real)
    requires n > 0
    requires n <= |ws| ==> ws[|ws| - n] == v
    requires |ws| < n ==> v == 0.0
    ensures Ring(n, ws)[|ws| % n] == v
  {
    RingReadOldest(n, ws);
  }

  /** What a comb line of n slots with feedback g hands out at sample k: the value it
      stored n samples earlier, which is the input then plus g times what it handed out
      then; 0.0 during the first n samples. */
  function CombTap(xs: seq<real>, n: nat, g: real, k: nat): real
    requires 0 < n && k < |xs|
    decreases k
  {
    if k < n then 0.0 else Feedback(xs[k - n], CombTap(xs, n, g, k - n), g)
  }

  /** The value a line stores: the input plus the feedback factor times what it handed out. */
  function Feedback(x: real, delayed: real, g: real): real {
    x + delayed * g
  }

  /** The values a comb line of n slots with feedback g has stored while the first k
      samples of xs went in: each input plus g times what the line handed out then. */
  function CombStored(xs: seq<real>, n: nat, g: real, k: nat): (ws: seq<real>)
    requires 0 < n && k <= |xs|
    ensures |ws| == k
  {
    if k == 0 then []
    else CombStored(xs, n, g, k - 1) + [Feedback(xs[k - 1], CombTap(xs, n, g, k - 1), g)]
  }

  lemma {:induction false} CombStoredAt(xs: seq<real>, n: nat, g: real, k: nat, t: nat)
    requires 0 < n && t < k <= |xs|
    ensures CombStored(xs, n, g, k)[t] == Feedback(xs[t], CombTap(xs, n, g, t), g)
  {
    if t < k - 1 {
      CombStoredAt(xs, n, g, k - 1, t);
    }
  }

  /** The value a comb line wrote n samples ago is its tap now; before that the tap is 0. */
  lemma CombOldest(xs: seq<real>, n: nat, g: real, k: nat)
    requires 0 < n && k < |xs|
    ensures n <= k ==> CombStored(xs, n, g, k)[k - n] == CombTap(xs, n, g, k)
    ensures k < n ==> CombTap(xs, n, g, k) == 0.0
  {
    if n <= k {
      CombStoredAt(xs, n, g, k, k - n);
      // After the first n samples a comb line hands out what it stored n samples earlier.
      assert CombTap(xs, n, g, k) == Feedback(xs[k - n], CombTap(xs, n, g, k - n), g);
    }
  }

  /** The slot under the cursor of a comb line holds exactly its next output: reading
      before writing delays by n samples. */
  lemma CombRead(xs: seq<real>, n: nat, g: real, k: nat)
    requires 0 < n && k < |xs|
    ensures var ws := CombStored(xs, n, g, k); Ring(n, ws)[|ws| % n] == CombTap(xs, n, g, k)
  {
    CombOldest(xs, n, g, k);
    RingHoldsOldest(n, CombStored(xs, n, g, k), CombTap(xs, n, g, k));
  }
}

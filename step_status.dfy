/** Classification of one step of the progress ring: the `State` enum and
    `getStatus` of MyCustomView.kt, over Kotlin's 32-bit `Int`. */
module StepStatus {

  const Int32Min: int := -0x8000_0000
  const Int32Max: int := 0x7fff_ffff

  /** Kotlin `Int`. */
  type Int32 = x: int | Int32Min <= x <= Int32Max

  /** Two's-complement wrap-around of Kotlin `Int` addition and subtraction. */
  function Wrap32(x: int): (r: Int32)
    ensures (r - x) % 0x1_0000_0000 == 0
    ensures Int32Min <= x <= Int32Max ==> r == x
  {
    (x + 0x8000_0000) % 0x1_0000_0000 - 0x8000_0000
  }

  /** The three colours an arc can take. */
  datatype State = Success | Failed | Pending

  /** Position of a state in the order in which the bands are laid out. */
  function Rank(st: State): nat
  {
    match st
    case Success => 0
    case Failed => 1
    case Pending => 2
  }

  /** `getStatus(success, failed, index)`; the threshold `success + failed`
      is an `Int` sum and wraps around like one. */
  function GetStatus(success: Int32, failed: Int32, index: Int32): (r: State)
    ensures r == Success <==> index < success
    ensures r == Failed <==> success <= index < Wrap32(success + failed)
    ensures r == Pending <==> success <= index && Wrap32(success + failed) <= index
  {
    if index < success then Success
    else if index < Wrap32(success + failed) then Failed
    else Pending
  }

  /** Without overflow of `success + failed`, the failed band is exactly the
      indices from `success` up to, not including, `success + failed`. */
  lemma FailedBandExact(success: Int32, failed: Int32, index: Int32)
    requires success + failed <= Int32Max && Int32Min <= success + failed
    ensures GetStatus(success, failed, index) == Failed <==> success <= index < success + failed
    ensures GetStatus(success, failed, index) == Pending <==> success <= index && success + failed <= index
  {
  }

  /** The bands are contiguous and ordered: a later index never has an
      earlier state than an earlier index. */
  lemma BandsOrdered(success: Int32, failed: Int32, i: Int32, j: Int32)
    requires i <= j
    ensures Rank(GetStatus(success, failed, i)) <= Rank(GetStatus(success, failed, j))
  {
  }

  /** `Clamp(x, lo, hi)` is `x` forced into `[lo, hi]`. */
  function Clamp(x: int, lo: int, hi: int): (r: int)
    requires lo <= hi
    ensures lo <= r <= hi
    ensures lo <= x <= hi ==> r == x
  {
    if x < lo then lo else if hi < x then hi else x
  }

  /** The number of indices in `[i, n)` that get state `st`, counted one by one. */
  function CountStatus(success: Int32, failed: Int32, st: State, i: int, n: int): (c: nat)
    requires 0 <= i <= n <= Int32Max + 1
    ensures c <= n - i
    decreases n - i
  {
    if i == n then 0
    else (if GetStatus(success, failed, i) == st then 1 else 0)
         + CountStatus(success, failed, st, i + 1, n)
  }

  /** Closed form of the band sizes among the indices `[i, n)`, for any counts,
      including negative ones and a wrapped threshold. */
  lemma {:induction false} BandSizes(success: Int32, failed: Int32, i: int, n: int)
    requires 0 <= i <= n <= Int32Max + 1
    ensures CountStatus(success, failed, Success, i, n) == Clamp(success, i, n) - i
    ensures CountStatus(success, failed, Failed, i, n)
            == if Clamp(success, i, n) <= Clamp(Wrap32(success + failed), i, n)
               then Clamp(Wrap32(success + failed), i, n) - Clamp(success, i, n) else 0
    ensures CountStatus(success, failed, Pending, i, n)
            == n - Clamp(if success <= Wrap32(success + failed) then Wrap32(success + failed) else success, i, n)
    decreases n - i
  {
    if i < n {
      BandSizes(success, failed, i + 1, n);
    }
  }

  /** With valid counts (`0 <= success`, `0 <= failed`,
      `success + failed <= total`), the first `total` indices hold exactly
      `success` successful, `failed` failed and `total - success - failed`
      pending steps. */
  lemma BandSizesValid(total: Int32, success: Int32, failed: Int32)
    requires 0 <= success && 0 <= failed && success + failed <= total
    ensures CountStatus(success, failed, Success, 0, total) == success
    ensures CountStatus(success, failed, Failed, 0, total) == failed
    ensures CountStatus(success, failed, Pending, 0, total) == total - success - failed
  {
    BandSizes(success, failed, 0, total);
  }

  /** With `success + failed > total` (non-negative counts whose sum does not
      overflow) no index of the first `total` is pending, although
      `total - success - failed` is negative. */
  lemma NoPendingWhenOverfull(total: Int32, success: Int32, failed: Int32)
    requires 0 <= total && 0 <= success && 0 <= failed
    requires total < success + failed <= Int32Max
    ensures CountStatus(success, failed, Pending, 0, total) == 0
  {
    BandSizes(success, failed, 0, total);
  }
}

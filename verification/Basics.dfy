/** Types, constants and small functions that several models share. */
module Basics {

  /** GetCurrentThreadId(); 0 is no thread. */
  type Tid = nat

  type Byte = b: int | 0 <= b < 256

  /** ULONG is 64 bits wide and wraps. */
  const WIDTH: nat := 0x1_0000_0000_0000_0000

  type Ulong = n: int | 0 <= n < WIDTH

  type Ushort = n: int | 0 <= n < 0x1_0000

  /** getpid(), a positive int. */
  type Pid = p: int | 0 < p < 0x8000_0000 witness 1

  const LFS_SUCCESS := 0
  const LFS_ERR_ALREADY_STARTED := -1
  const LFS_ERR_INTERNAL_ERROR := -15
  const LFS_ERR_INVALID_ADDRESS := -16
  const LFS_ERR_INVALID_APP_HANDLE := -17
  const LFS_ERR_INVALID_BUFFER := -18
  const LFS_ERR_INVALID_HSERVICE := -22
  const LFS_ERR_INVALID_POINTER := -26
  const LFS_ERR_INVALID_SERVPROV := -29
  const LFS_ERR_NOT_STARTED := -39
  const LFS_ERR_OUT_OF_MEMORY := -42

  ghost function Count(b: bool): int { if b then 1 else 0 }

  function Sum(s: seq<nat>): nat { if s == [] then 0 else Sum(s[..|s| - 1]) + s[|s| - 1] }

  lemma SumPush(s: seq<nat>, x: nat)
    ensures Sum(s + [x]) == Sum(s) + x
  {
    assert (s + [x])[..|s|] == s;
  }

  lemma {:induction false} SumJoin(a: seq<nat>, b: seq<nat>)
    ensures Sum(a + b) == Sum(a) + Sum(b)
  {
    if b == [] {
      assert a + b == a;
    } else {
      assert (a + b)[..|a + b| - 1] == a + b[..|b| - 1];
      SumJoin(a, b[..|b| - 1]);
    }
  }
}

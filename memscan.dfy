/** memscan: the index of the first occurrence of a byte string in a memory
    block, with the semantics of `basic_string_view::find(s, 0, n)` as given
    in [string.view.find] of the ISO C++ standard. */
module MemScan {
  import opened InjectorApi

  /** size_t is 64 bits wide on the targets the injector is built for. */
  const SizeLimit: nat := 0x1_0000_0000_0000_0000

  /** `std::string_view::npos`, that is SIZE_MAX. */
  const Npos: nat := SizeLimit - 1

  /** `str` occurs in `mem` at index `i`. */
  predicate MatchesAt(mem: seq<Byte>, str: seq<Byte>, i: nat)
  {
    i + |str| <= |mem| && mem[i..i + |str|] == str
  }

  /** The search from index `i` on. */
  function FindFrom(mem: seq<Byte>, str: seq<Byte>, i: nat): nat
    decreases |mem| - i
  {
    if i + |str| > |mem| then Npos
    else if mem[i..i + |str|] == str then i
    else FindFrom(mem, str, i + 1)
  }

  /** memscan(mem, |mem|, str, |str|); both buffers are only read. */
  function Scan(mem: seq<Byte>, str: seq<Byte>): nat
    requires |mem| < SizeLimit && |str| < SizeLimit
  {
    FindFrom(mem, str, 0)
  }

  /** The search from `i` returns either npos or a match at or after `i`
      with no match between `i` and it. */
  lemma {:induction false} FindFromSpec(mem: seq<Byte>, str: seq<Byte>, i: nat)
    requires |mem| < Npos
    ensures var r := FindFrom(mem, str, i);
      && (r != Npos ==> i <= r && MatchesAt(mem, str, r))
      && (forall j :: i <= j < r && j <= |mem| ==> !MatchesAt(mem, str, j))
      && (r == Npos ==> forall j :: i <= j ==> !MatchesAt(mem, str, j))
    decreases |mem| - i
  {
    if i + |str| > |mem| {
      forall j | i <= j
        ensures !MatchesAt(mem, str, j)
      {
      }
    } else if mem[i..i + |str|] != str {
      FindFromSpec(mem, str, i + 1);
    }
  }

  /** A result other than npos is a match: the needle fits and the bytes
      there equal it. */
  lemma ScanFound(mem: seq<Byte>, str: seq<Byte>)
    requires |mem| < Npos && |str| < SizeLimit
    ensures var r := Scan(mem, str);
      r != Npos ==> r + |str| <= |mem| && mem[r..r + |str|] == str
  {
    FindFromSpec(mem, str, 0);
  }

  /** The result is the least index at which the needle occurs. */
  lemma ScanLeast(mem: seq<Byte>, str: seq<Byte>, j: nat)
    requires |mem| < Npos && |str| < SizeLimit
    requires MatchesAt(mem, str, j)
    ensures Scan(mem, str) <= j
  {
    FindFromSpec(mem, str, 0);
  }

  /** The result is npos exactly when the needle occurs nowhere. */
  lemma ScanAbsent(mem: seq<Byte>, str: seq<Byte>)
    requires |mem| < Npos && |str| < SizeLimit
    ensures Scan(mem, str) == Npos <==> forall j :: !MatchesAt(mem, str, j)
  {
    FindFromSpec(mem, str, 0);
    if Scan(mem, str) != Npos {
      assert MatchesAt(mem, str, Scan(mem, str));
    }
  }

  /** An empty needle is found at index 0. */
  lemma ScanEmptyNeedle(mem: seq<Byte>)
    requires |mem| < SizeLimit
    ensures Scan(mem, []) == 0
  {
    assert mem[0..0] == [];
  }

  /** A needle longer than the memory block is never found. */
  lemma ScanTooLong(mem: seq<Byte>, str: seq<Byte>)
    requires |mem| < |str| < SizeLimit
    ensures Scan(mem, str) == Npos
  {
  }
}

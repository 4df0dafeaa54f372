/** The older injector's replacement for the game's workshop-item queries:
    installed mods are the folders of `..\..\..\Mods` whose names are item
    IDs in decimal. */
module ModFolders {
  import opened Wrappers
  import opened InjectorApi
  import opened Decimal

  const U32: nat := 0x1_0000_0000
  const U64: nat := 0x1_0000_0000_0000_0000

  /** The path of the Mods folder relative to the game binary. */
  const ModsPrefix: seq<char> := "..\\..\\..\\Mods\\"

  /** A directory listing as FindFirstFileExW and FindNextFileW return it:
      None when the search cannot start, otherwise every name in order. The
      first name (".") comes with FindFirstFileExW and the second ("..") is
      skipped by one FindNextFileW call; the loop sees the rest. */
  function Examined(listing: Option<seq<seq<char>>>): seq<seq<char>>
  {
    match listing
    case None => []
    case Some(names) => if |names| < 2 then [] else names[2..]
  }

  /** How many names consist of decimal digits only. */
  function CountIds(names: seq<seq<char>>): nat
  {
    if names == [] then 0
    else CountIds(names[..|names| - 1]) + (if AllDigits(names[|names| - 1]) then 1 else 0)
  }

  /** The item ID a folder name stands for: its decimal value modulo 2^64
      (the accumulator is a uint64_t), or 0 as soon as a character is not a
      digit. */
  function FolderId(name: seq<char>): nat
  {
    if AllDigits(name) then Value(name) % U64 else 0
  }

  /** The IDs written out: the non-zero ones, in listing order. */
  function SubscribedIds(names: seq<seq<char>>): seq<nat>
  {
    if names == [] then []
    else
      var id := FolderId(names[|names| - 1]);
      SubscribedIds(names[..|names| - 1]) + (if id != 0 then [id] else [])
  }

  /** The scan over one name, stopping at the first character outside 0-9. */
  method IsIdName(name: seq<char>) returns (valid: bool)
    ensures valid == AllDigits(name)
  {
    valid := true;
    var k := 0;
    while k < |name|
      invariant 0 <= k <= |name|
      invariant valid && AllDigits(name[..k])
    {
      if name[k] < '0' || name[k] > '9' {
        valid := false;
        assert !IsDigit(name[k]);
        return;
      }
      k := k + 1;
    }
    assert name[..k] == name;
  }

  /** get_num_subscribed_items: the number of folders named by digits only,
      in a 32-bit counter. */
  method GetNumSubscribedItems(listing: Option<seq<seq<char>>>) returns (n: nat)
    ensures n == CountIds(Examined(listing)) % U32
  {
    var names := Examined(listing);
    n := 0;
    var k := 0;
    while k < |names|
      invariant 0 <= k <= |names|
      invariant n == CountIds(names[..k]) % U32
    {
      var valid := IsIdName(names[k]);
      assert names[..k + 1][..k] == names[..k];
      if valid {
        n := (n + 1) % U32;
      }
      k := k + 1;
    }
    assert names[..k] == names;
  }

  lemma ValueStep(s: seq<char>, k: nat)
    requires k < |s| && AllDigits(s)
    ensures AllDigits(s[..k]) && AllDigits(s[..k + 1])
    ensures Value(s[..k + 1]) == Value(s[..k]) * 10 + DigitValue(s[k])
  {
    assert s[..k + 1][..k] == s[..k];
  }

  lemma ModStep(a: nat, d: nat)
    ensures ((a % U64) * 10 + d) % U64 == (a * 10 + d) % U64
  {
    var q := a / U64;
    assert a == q * U64 + a % U64;
    assert a * 10 + d == (a % U64) * 10 + d + (q * 10) * U64;
  }

  /** The parse of one folder name into a uint64 ID. */
  method ParseFolderName(name: seq<char>) returns (id: nat)
    ensures id == FolderId(name)
    ensures id < U64
  {
    id := 0;
    var k := 0;
    while k < |name|
      invariant 0 <= k <= |name|
      invariant AllDigits(name[..k])
      invariant id == Value(name[..k]) % U64
    {
      if name[k] < '0' || name[k] > '9' {
        assert !IsDigit(name[k]);
        return 0;
      }
      assert name[..k + 1][..k] == name[..k];
      assert AllDigits(name[..k + 1]);
      ModStep(Value(name[..k]), DigitValue(name[k]));
      id := (id * 10 + DigitValue(name[k])) % U64;
      k := k + 1;
    }
    assert name[..k] == name;
  }

  /** get_subscribed_items: every non-zero ID is written to the caller's
      array in listing order, with no bound check, and the capacity passed
      in is returned rather than the number written. When the Mods folder
      cannot be searched nothing is written and 0 is returned. */
  method GetSubscribedItems(listing: Option<seq<seq<char>>>, ids: array<nat>, maxEntries: nat)
      returns (ret: nat)
    requires |SubscribedIds(Examined(listing))| <= ids.Length
    modifies ids
    ensures ret == if listing.None? then 0 else maxEntries
    ensures var s := SubscribedIds(Examined(listing));
      ids[..|s|] == s && ids[|s|..] == old(ids[|s|..])
  {
    if listing.None? {
      return 0;
    }
    var names := Examined(listing);
    var written := 0;
    var k := 0;
    while k < |names|
      invariant 0 <= k <= |names|
      invariant written == |SubscribedIds(names[..k])| && written <= ids.Length
      invariant ids[..written] == SubscribedIds(names[..k])
      invariant ids[written..] == old(ids[written..])
    {
      assert names[..k + 1][..k] == names[..k];
      SubscribedPrefix(names, k + 1);
      var id := ParseFolderName(names[k]);
      if id != 0 {
        ids[written] := id;
        written := written + 1;
      }
      k := k + 1;
    }
    assert names[..k] == names;
    ret := maxEntries;
  }

  /** Listing prefixes give prefixes of the written IDs, so the bound holds
      throughout the loop. */
  lemma {:induction false} SubscribedPrefix(names: seq<seq<char>>, k: nat)
    requires k <= |names|
    ensures |SubscribedIds(names[..k])| <= |SubscribedIds(names)|
    decreases |names|
  {
    if k < |names| {
      assert names[..|names| - 1][..k] == names[..k];
      SubscribedPrefix(names[..|names| - 1], k);
    } else {
      assert names[..k] == names;
    }
  }

  /** Every written ID comes from a digits-only name, so the array sized by
      get_num_subscribed_items is large enough for get_subscribed_items on
      the same listing. */
  lemma {:induction false} SubscribedWithinCount(names: seq<seq<char>>)
    ensures |SubscribedIds(names)| <= CountIds(names)
  {
    if names != [] {
      SubscribedWithinCount(names[..|names| - 1]);
    }
  }

  /** Every written ID is non-zero and below 2^64, and the order of the
      listing is kept: the IDs of a concatenation are the IDs of its parts. */
  lemma {:induction false} SubscribedAppend(a: seq<seq<char>>, b: seq<seq<char>>)
    ensures SubscribedIds(a + b) == SubscribedIds(a) + SubscribedIds(b)
    decreases |b|
  {
    if b == [] {
      assert a + b == a;
    } else {
      assert (a + b)[..|a + b| - 1] == a + b[..|b| - 1];
      SubscribedAppend(a, b[..|b| - 1]);
    }
  }

  lemma {:induction false} SubscribedNonZero(names: seq<seq<char>>)
    ensures forall i :: 0 <= i < |SubscribedIds(names)| ==> 0 < SubscribedIds(names)[i] < U64
  {
    if names != [] {
      SubscribedNonZero(names[..|names| - 1]);
    }
  }

  /** A folder named "0" is counted but its ID is never written. */
  lemma ZeroFolder()
    ensures CountIds(["0"]) == 1 && SubscribedIds(["0"]) == []
  {
    assert ["0"][..0] == [];
    assert Value("0"[..0]) == 0;
  }

  /** A name printed from an ID parses back to that ID. */
  lemma FolderIdOfDigits(id: nat)
    requires 0 < id < U64
    ensures FolderId(Digits(id)) == id
  {
    ValueOfDigits(id);
  }

  // ---------------------------------------------------------------------
  // The install path of one item

  /** The path the game is given for an item: the Mods folder followed by
      the ID's digits, most significant first (none for ID 0). */
  function InstallPath(id: nat): seq<char>
  {
    ModsPrefix + Digits(id)
  }

  lemma Pow10Values()
    ensures Pow10(19) == 10_000_000_000_000_000_000
    ensures Pow10(20) == 100_000_000_000_000_000_000
  {
    assert Pow10(4) == 10_000;
    assert Pow10(8) == 100_000_000;
    assert Pow10(12) == 1_000_000_000_000;
    assert Pow10(16) == 10_000_000_000_000_000;
  }

  /** As written, the digit buffer has 20 slots with the terminator in the
      last one, and the loop writes the digits backwards from the slot
      before it: the last slot written is this one. */
  function LowestDigitSlot(id: nat): int
  {
    19 - |Digits(id)|
  }

  /** The last digit lands before the buffer exactly for the IDs of 20
      digits, which a uint64_t can hold: 10^19 writes slot -1. */
  lemma DigitBufferOverrun(id: nat)
    requires id < U64
    ensures LowestDigitSlot(id) < 0 <==> id >= Pow10(19)
    ensures LowestDigitSlot(Pow10(19)) == -1 && Pow10(19) < U64
  {
    Pow10Values();
    if id >= Pow10(19) {
      DigitsLengthAtLeast(id, 19);
    } else {
      DigitsLength(id, 19);
    }
    DigitsLengthAtLeast(Pow10(19), 19);
    DigitsLength(Pow10(19), 20);
  }

  /** The digits written into the number buffer, most significant first,
      with one slot per digit of a uint64_t and one for the terminator. */
  method FormatInstallPath(id: nat) returns (path: seq<char>)
    requires id < U64
    ensures path == InstallPath(id)
  {
    DigitsFit(id);
    var numberBuffer := new char[21];
    numberBuffer[20] := '\0';
    var i := 20;
    var n := id;
    while n != 0
      invariant 0 <= i <= 20
      invariant Digits(id) == Digits(n) + numberBuffer[i..20]
      invariant |Digits(n)| <= i
      decreases n
    {
      DigitStep(n, numberBuffer[i..20]);
      i := i - 1;
      numberBuffer[i] := DigitChar(n % 10);
      assert numberBuffer[i..20] == [DigitChar(n % 10)] + numberBuffer[i + 1..20];
      n := n / 10;
    }
    assert Digits(id) == numberBuffer[i..20];
    path := ModsPrefix + numberBuffer[i..20];
  }

  /** An ID below 2^64 has at most 20 digits. */
  lemma DigitsFit(id: nat)
    requires id < U64
    ensures |Digits(id)| <= 20
  {
    Pow10Values();
    DigitsLength(id, 20);
  }

  /** Printing the lowest digit in front of what is already written. */
  lemma DigitStep(n: nat, written: seq<char>)
    requires n != 0
    ensures Digits(n) + written == Digits(n / 10) + ([DigitChar(n % 10)] + written)
  {
  }

  /** get_item_install_info: the size on disk is always reported as 0 and
      the item is never legacy; the folder is returned when it exists and is
      the empty string otherwise. `onDisk` is what GetFileAttributesW says
      about the path. */
  method GetItemInstallInfo(id: nat, onDisk: bool) returns (found: bool, folder: seq<char>, sizeOnDisk: nat, legacy: bool)
    requires id < U64
    ensures sizeOnDisk == 0 && !legacy
    ensures found == onDisk
    ensures found ==> folder == InstallPath(id) && FolderId(folder[|ModsPrefix|..]) == id
    ensures !found ==> folder == []
  {
    sizeOnDisk, legacy := 0, false;
    var path := FormatInstallPath(id);
    if !onDisk {
      return false, [], sizeOnDisk, legacy;
    }
    assert path[|ModsPrefix|..] == Digits(id);
    if id != 0 {
      FolderIdOfDigits(id);
    }
    found, folder := true, path;
  }
}

/** The key handling of the `config` commands (internal/cli/config.go):
    what `set-key` accepts and stores, and how `show` masks the stored key.
    Reading the terminal and writing the configuration file are I/O; their
    outcomes enter as inputs. */
module CliConfig {
  import opened Base

  /** unicode.IsSpace: the Unicode White_Space characters. */
  predicate IsSpace(c: char) {
    var n := c as int;
    (0x09 <= n <= 0x0D) || n == 0x20 || n == 0x85 || n == 0xA0 || n == 0x1680 ||
    (0x2000 <= n <= 0x200A) || n == 0x2028 || n == 0x2029 || n == 0x202F || n == 0x205F || n == 0x3000
  }

  function TrimLeft(s: string): (r: string)
    ensures |r| <= |s| && r == s[|s| - |r|..]
    ensures forall i :: 0 <= i < |s| - |r| ==> IsSpace(s[i])
    ensures r != [] ==> !IsSpace(r[0])
    decreases |s|
  {
    if s != [] && IsSpace(s[0]) then TrimLeft(s[1..]) else s
  }

  function TrimRight(s: string): (r: string)
    ensures |r| <= |s| && r == s[..|r|]
    ensures forall i :: |r| <= i < |s| ==> IsSpace(s[i])
    ensures r != [] ==> !IsSpace(r[|r| - 1])
    decreases |s|
  {
    if s != [] && IsSpace(s[|s| - 1]) then TrimRight(s[..|s| - 1]) else s
  }

  /** strings.TrimSpace: what is left after dropping the white space at
      both ends. */
  function TrimSpace(s: string): (r: string)
    ensures r != [] ==> !IsSpace(r[0]) && !IsSpace(r[|r| - 1])
    ensures r == [] <==> forall k :: 0 <= k < |s| ==> IsSpace(s[k])
  {
    var left := TrimLeft(s);
    TrimRight(left)
  }

  /** The trimmed text is a slice of the input with only white space cut
      away on either side. */
  lemma TrimSpaceIsSlice(s: string)
    ensures exists i, j :: (0 <= i <= j <= |s| && TrimSpace(s) == s[i..j] &&
      (forall k :: 0 <= k < i ==> IsSpace(s[k])) && (forall k :: j <= k < |s| ==> IsSpace(s[k])))
  {
    var left := TrimLeft(s);
    var r := TrimSpace(s);
    var i := |s| - |left|;
    assert r == s[i..i + |r|];
    forall k | i + |r| <= k < |s| ensures IsSpace(s[k]) {
      assert s[k] == left[k - i];
    }
  }

  /** Trimming is idempotent. */
  lemma TrimSpaceIdempotent(s: string)
    ensures TrimSpace(TrimSpace(s)) == TrimSpace(s)
  {
    var r := TrimSpace(s);
    if r != [] {
      assert TrimLeft(r) == r;
      assert TrimRight(r) == r;
    }
  }

  /** What `set-key` ends with: the key it stored, and whether it warned
      that the key lacks the "sk-" prefix. */
  datatype Stored = Stored(key: string, warned: bool)

  const ReadFailed: string := "failed to read API key"
  const EmptyKey: string := "API key cannot be empty"
  const SaveFailed: string := "failed to save config"

  /** `set-key`. `line` is what the terminal read produced (None: it failed);
      `saved` whether either configuration write succeeded. A key that is
      empty after trimming is refused; a key without "sk-" is only warned
      about and stored all the same. */
  function SetKey(line: Option<string>, saved: bool): (r: Result<Stored, string>)
    ensures line.None? ==> r == Failure(ReadFailed)
    ensures line.Some? && TrimSpace(line.value) == "" ==> r == Failure(EmptyKey)
    ensures line.Some? && TrimSpace(line.value) != "" && !saved ==> r == Failure(SaveFailed)
    ensures line.Some? && TrimSpace(line.value) != "" && saved ==>
      r == Success(Stored(TrimSpace(line.value), !HasPrefix(TrimSpace(line.value), "sk-")))
    ensures r.Success? ==>
      line.Some? && saved && r.value.key == TrimSpace(line.value) && r.value.key != "" &&
      (r.value.warned <==> !HasPrefix(r.value.key, "sk-"))
  {
    match line
    case None => Failure(ReadFailed)
    case Some(raw) =>
      var key := TrimSpace(raw);
      if key == "" then Failure(EmptyKey)
      else if !saved then Failure(SaveFailed)
      else Success(Stored(key, !HasPrefix(key, "sk-")))
  }

  /** The mask: the first seven characters, "...", the last four. */
  function MaskKey(key: string): (r: string)
    requires |key| >= 7
    ensures |r| == 14
    ensures r[..7] == key[..7] && r[7..10] == "..." && r[10..] == key[|key| - 4..]
  {
    key[..7] + "..." + key[|key| - 4..]
  }

  /** A key of eleven or fewer characters is revealed in full by its mask:
      the two kept ends overlap or touch. */
  lemma ShortKeyRevealed(key: string)
    requires 7 <= |key| <= 11
    ensures var r := MaskKey(key); r[..7] + r[10 + 4 - (|key| - 7)..] == key
  {
    var r := MaskKey(key);
    assert r[10 + 4 - (|key| - 7)..] == key[7..];
    assert key[..7] + key[7..] == key;
  }

  /** What `show` prints for the key, or a slice out of range. */
  datatype Shown = Shown(text: string) | SlicePanic

  /** `show` as written: a non-empty key is masked with no length check. */
  function ShowKeyAsWritten(key: string): (r: Shown)
    ensures key == "" ==> r == Shown("(not set)")
    ensures key != "" && |key| < 7 ==> r == SlicePanic
    ensures |key| >= 7 ==> r == Shown(MaskKey(key))
  {
    if key == "" then Shown("(not set)")
    else if |key| < 7 then SlicePanic
    else Shown(MaskKey(key))
  }

  /** `show` with the length check the mask needs: a key too short to mask
      is hidden entirely. */
  function ShowKey(key: string): (r: string)
    ensures ShowKeyAsWritten(key).Shown? ==> r == ShowKeyAsWritten(key).text
    ensures key != "" && |key| < 7 ==> r == "..."
    ensures key != "" ==> |r| == 3 || |r| == 14
  {
    if key == "" then "(not set)"
    else if |key| < 7 then "..."
    else MaskKey(key)
  }

  /** A key `set-key` accepts and stores makes `show` fail when it is
      shorter than seven characters: "abc" is one. */
  lemma StoredKeyPanicsShow()
    ensures SetKey(Some("abc\n"), true) == Success(Stored("abc", true))
    ensures ShowKeyAsWritten("abc") == SlicePanic
  {
    TrimmedLine();
    assert !HasPrefix("abc", "sk-") by {
      assert "abc"[0] != "sk-"[0];
    }
  }

  /** The terminal line "abc\n" trims to "abc". */
  lemma TrimmedLine()
    ensures TrimSpace("abc\n") == "abc"
  {
    var line := "abc\n";
    assert !IsSpace(line[0]);
    assert TrimLeft(line) == line;
    assert IsSpace(line[3]) && line[..3] == "abc";
    assert TrimRight(line) == TrimRight("abc");
    assert !IsSpace("abc"[2]);
    assert TrimRight("abc") == "abc";
  }

  /** With the length check, every key `set-key` stores can be shown. */
  lemma StoredKeyShown(line: string)
    requires SetKey(Some(line), true).Success?
    ensures var key := SetKey(Some(line), true).value.key;
      ShowKey(key) == (if |key| < 7 then "..." else MaskKey(key))
  {
  }
}

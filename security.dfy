// The input sanitiser and the encryption pass-through of utils/security.py.
module Security {
  import opened Wrappers
  import opened PyStr

  // ---------------------------------------------------------------- sanitize_input

  /** The characters `sanitize_input` deletes, in the order it deletes them. */
  const Dangerous: seq<char> := ['<', '>', '"', '\'', '&', '\0']

  /** The longest text `sanitize_input` keeps before stripping. */
  const MaxInputLength: nat := 1000

  /** `t` with every occurrence of `c` deleted. */
  function Without(t: String, c: char): (r: String)
    ensures |r| <= |t| && c !in r
    ensures forall x :: x in r ==> x in t
  {
    if |t| == 0 then ""
    else (if t[0] == c then "" else [t[0]]) + Without(t[1..], c)
  }

  /** Deleting a character that does not occur changes nothing. */
  lemma {:induction false} WithoutAbsent(t: String, c: char)
    requires c !in t
    ensures Without(t, c) == t
  {
    if |t| > 0 {
      assert c !in t[1..];
      WithoutAbsent(t[1..], c);
    }
  }

  lemma {:induction false} JoinEmptyPrepend(x: char, rest: seq<String>)
    requires |rest| >= 1
    ensures Join([[x] + rest[0]] + rest[1..], "") == [x] + Join(rest, "")
  {
    var l := [[x] + rest[0]] + rest[1..];
    if |rest| > 1 {
      assert l[1..] == rest[1..];
      var tail := Join(rest[1..], "");
      assert Join(l, "") == ([x] + rest[0]) + "" + tail;
      assert Join(rest, "") == rest[0] + "" + tail;
    }
  }

  /** `t.replace(c, '')` deletes every `c` and keeps everything else in order. */
  lemma {:induction false} ReplaceCharIsRemoval(t: String, c: char)
    ensures ReplaceAll(t, [c], "") == Without(t, c)
    decreases |t|
  {
    if |t| > 0 {
      ReplaceCharIsRemoval(t[1..], c);
      var rest := Split(t[1..], [c]);
      if t[0] == c {
        assert StartsWith(t, [c]);
        assert Split(t, [c]) == [""] + rest;
        JoinCons("", rest, "");
      } else {
        assert !StartsWith(t, [c]);
        assert Split(t, [c]) == [[t[0]] + rest[0]] + rest[1..];
        JoinEmptyPrepend(t[0], rest);
      }
    }
  }

  /** The text after the first `|cs|` passes of the deletion loop. */
  function RemovedAll(t: String, cs: seq<char>): String
  {
    if |cs| == 0 then t
    else ReplaceAll(RemovedAll(t, cs[..|cs| - 1]), [cs[|cs| - 1]], "")
  }

  /** After the passes, none of the deleted characters remains and nothing new appears. */
  lemma {:induction false} RemovedAllLacks(t: String, cs: seq<char>)
    ensures forall c :: c in cs ==> c !in RemovedAll(t, cs)
    ensures forall x :: x in RemovedAll(t, cs) ==> x in t
    ensures |RemovedAll(t, cs)| <= |t|
  {
    if |cs| > 0 {
      var pre := cs[..|cs| - 1];
      RemovedAllLacks(t, pre);
      ReplaceCharIsRemoval(RemovedAll(t, pre), cs[|cs| - 1]);
      assert forall c :: c in cs ==> c in pre || c == cs[|cs| - 1];
    }
  }

  /** Text with none of the characters deleted passes through the deletion loop unchanged. */
  lemma {:induction false} RemovedAllNoOp(t: String, cs: seq<char>)
    requires forall c :: c in cs ==> c !in t
    ensures RemovedAll(t, cs) == t
  {
    if |cs| > 0 {
      var pre := cs[..|cs| - 1];
      RemovedAllNoOp(t, pre);
      ReplaceCharIsRemoval(t, cs[|cs| - 1]);
      WithoutAbsent(t, cs[|cs| - 1]);
    }
  }

  /**
   * What `sanitize_input` returns: `""` for `None` or the empty string,
   * otherwise the text with the dangerous characters deleted, cut to 1000
   * characters and stripped.
   */
  function Sanitized(text: Option<String>): String
  {
    if text.None? || text.value == "" then ""
    else
      var t := RemovedAll(text.value, Dangerous);
      Strip(if |t| > MaxInputLength then t[..MaxInputLength] else t)
  }

  /** `sanitize_input`, deleting the dangerous characters one pass at a time. */
  method SanitizeInput(text: Option<String>) returns (r: String)
    ensures r == Sanitized(text)
  {
    if text.None? || text.value == "" {
      return "";
    }
    var t := text.value;
    var i := 0;
    while i < |Dangerous|
      invariant 0 <= i <= |Dangerous|
      invariant t == RemovedAll(text.value, Dangerous[..i])
    {
      assert Dangerous[..i + 1][..i] == Dangerous[..i];
      t := ReplaceAll(t, [Dangerous[i]], "");
      i := i + 1;
    }
    assert Dangerous[..i] == Dangerous;
    if |t| > MaxInputLength {
      t := t[..MaxInputLength];
    }
    r := Strip(t);
  }

  /** The sanitised text holds no dangerous character, is at most 1000 long and is stripped. */
  lemma SanitizedSafe(text: Option<String>)
    ensures var r := Sanitized(text);
      (forall c :: c in Dangerous ==> c !in r)
      && |r| <= MaxInputLength
      && (|r| > 0 ==> !IsSpace(r[0]) && !IsSpace(r[|r| - 1]))
  {
    if text.Some? && text.value != "" {
      RemovedAllLacks(text.value, Dangerous);
    }
  }

  /** Sanitising twice is the same as sanitising once. */
  lemma SanitizeIdempotent(text: Option<String>)
    ensures Sanitized(Some(Sanitized(text))) == Sanitized(text)
  {
    var r := Sanitized(text);
    if r != "" {
      SanitizedSafe(text);
      RemovedAllNoOp(r, Dangerous);
      StripNoOp(r);
    }
  }

  // ---------------------------------------------------------------- encrypt / decrypt

  /**
   * The encryption state: without a key there is no cipher; with one, the
   * Fernet encryption and decryption (base64 wrapping included) are given as
   * functions whose `None` is a raised exception.
   */
  datatype Cipher =
    | NoKey
    | Key(encrypt: String -> Option<String>, decrypt: String -> Option<String>)

  /** `encrypt_data`: the input itself without a key or when encryption fails. */
  function EncryptData(c: Cipher, data: String): (r: String)
    ensures c.NoKey? ==> r == data
    ensures c.Key? && c.encrypt(data).None? ==> r == data
    ensures c.Key? && c.encrypt(data).Some? ==> r == c.encrypt(data).value
  {
    match c
    case NoKey => data
    case Key(enc, _) => enc(data).GetOr(data)
  }

  /** `decrypt_data`: the input itself without a key or when decryption fails. */
  function DecryptData(c: Cipher, data: String): (r: String)
    ensures c.NoKey? ==> r == data
    ensures c.Key? && c.decrypt(data).None? ==> r == data
    ensures c.Key? && c.decrypt(data).Some? ==> r == c.decrypt(data).value
  {
    match c
    case NoKey => data
    case Key(_, dec) => dec(data).GetOr(data)
  }

  /** Decryption undoes encryption when there is no key, and when both cipher steps succeed and invert each other. */
  lemma EncryptDecryptRoundTrip(c: Cipher, data: String)
    requires c.Key? ==> exists e :: c.encrypt(data) == Some(e) && c.decrypt(e) == Some(data)
    ensures DecryptData(c, EncryptData(c, data)) == data
  {
    if c.Key? {
      var e :| c.encrypt(data) == Some(e) && c.decrypt(e) == Some(data);
    }
  }
}

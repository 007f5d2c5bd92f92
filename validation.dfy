/**
 Input validation: player and clan tags, password strength, and trimming
 free-text input to a maximum length. Each check that fails raises a 400
 error with its own reason; the first failing check decides the reason.
 */
module Validation {
  import opened Common
  import opened Text
  import Config

  // ---------------------------------------------------------------- validate_player_tag

  /** The part of a tag after every leading '#'. */
  function TagBody(tag: string): string { LStripChar(tag, '#') }

  /** The format check as written: what is left after deleting '0' and 'O' must be alphanumeric. */
  predicate PassesFormatCheck(body: string) {
    IsAlnumString(RemoveChar(RemoveChar(body, '0'), 'O'))
  }

  function ValidatePlayerTag(tag: string): (r: Result<string, Error>)
    ensures tag == [] ==> r == Err(Error(400, TagEmpty))
    ensures r.Err? ==> r.error.status == 400
    ensures r.Ok? ==> r.value == "#" + Upper(TagBody(tag))
    ensures r.Ok? ==> "#" <= r.value && |r.value| <= 16
    ensures r.Ok? ==> forall i :: 0 <= i < |r.value| ==> !IsLower(r.value[i])
  {
    if tag == [] then Err(Error(400, TagEmpty))
    else
      var clean := TagBody(tag);
      if |clean| > 15 then Err(Error(400, TagTooLong))
      else if !PassesFormatCheck(clean) then Err(Error(400, TagNotAlphanumeric))
      else Ok("#" + Upper(clean))
  }

  /** Deleting two characters leaves an alphanumeric string exactly when every character
      is alphanumeric and some character is neither of the two. */
  lemma RemoveCharAlnum(s: string, a: char, b: char)
    requires IsAlnum(a) && IsAlnum(b)
    ensures IsAlnumString(RemoveChar(RemoveChar(s, a), b)) <==>
      (forall c :: c in s ==> IsAlnum(c)) && (exists c :: c in s && c != a && c != b)
  {
    var r := RemoveChar(RemoveChar(s, a), b);
    if (forall c :: c in s ==> IsAlnum(c)) && (exists c :: c in s && c != a && c != b) {
      var c :| c in s && c != a && c != b;
      assert c in r;
      assert forall i :: 0 <= i < |r| ==> r[i] in r;
    }
    if IsAlnumString(r) {
      assert r[0] in r;
      forall c | c in s ensures IsAlnum(c) {
        if c != a && c != b {
          assert c in r;
          var i :| 0 <= i < |r| && r[i] == c;
        }
      }
    }
  }

  /** A tag is accepted exactly when it is non-empty, its body has at most 15 characters,
      all alphanumeric, and some character of the body is neither '0' nor 'O'. */
  lemma ValidatePlayerTagAccepts(tag: string)
    ensures ValidatePlayerTag(tag).Ok? <==>
      tag != [] && |TagBody(tag)| <= 15 &&
      (forall c :: c in TagBody(tag) ==> IsAlnum(c)) &&
      (exists c :: c in TagBody(tag) && c != '0' && c != 'O')
  {
    RemoveCharAlnum(TagBody(tag), '0', 'O');
  }

  /** A tag that is only '#'s, or whose body is only '0's and 'O's, is rejected as malformed. */
  lemma ZeroAndOhOnlyRejected(tag: string)
    requires tag != [] && |TagBody(tag)| <= 15
    requires forall c :: c in TagBody(tag) ==> c == '0' || c == 'O'
    ensures ValidatePlayerTag(tag) == Err(Error(400, TagNotAlphanumeric))
  {
    RemoveCharAlnum(TagBody(tag), '0', 'O');
  }

  lemma UpperUpper(s: string)
    ensures Upper(Upper(s)) == Upper(s)
  {
  }

  lemma UpperAlnum(s: string)
    requires forall c :: c in s ==> IsAlnum(c)
    ensures forall c :: c in Upper(s) ==> IsAlnum(c)
  {
    forall c | c in Upper(s) ensures IsAlnum(c) {
      var i :| 0 <= i < |s| && Upper(s)[i] == c;
      assert s[i] in s;
    }
  }

  lemma TagBodyOfValidated(body: string)
    requires body != [] && body[0] != '#'
    ensures TagBody("#" + Upper(body)) == Upper(body)
  {
    var out := "#" + Upper(body);
    assert out[0] == '#' && out[1..] == Upper(body);
    assert Upper(body)[0] != '#';
  }

  /** Validating an accepted tag again returns it unchanged, provided its body has a character
      other than '0', 'O' and 'o' (a lowercase 'o' is accepted, then upper-cased to 'O'). */
  lemma ValidatePlayerTagIdempotent(tag: string)
    requires ValidatePlayerTag(tag).Ok?
    requires exists c :: c in TagBody(tag) && c != '0' && c != 'O' && c != 'o'
    ensures ValidatePlayerTag(ValidatePlayerTag(tag).value) == ValidatePlayerTag(tag)
  {
    var body := TagBody(tag);
    ValidatePlayerTagAccepts(tag);
    assert body != [] && body[0] != '#';
    TagBodyOfValidated(body);
    var out := "#" + Upper(body);
    assert ValidatePlayerTag(tag) == Ok(out);
    var c :| c in body && c != '0' && c != 'O' && c != 'o';
    var i :| 0 <= i < |body| && body[i] == c;
    assert Upper(body)[i] in Upper(body) && Upper(body)[i] != '0' && Upper(body)[i] != 'O';
    UpperAlnum(body);
    ValidatePlayerTagAccepts(out);
    assert ValidatePlayerTag(out).Ok?;
    UpperUpper(body);
    assert ValidatePlayerTag(out).value == "#" + Upper(Upper(body));
  }

  /** Upper-casing a string of '0', 'O' and 'o' leaves only '0' and 'O'. */
  lemma UpperZeroOh(body: string)
    requires forall c :: c in body ==> c == '0' || c == 'O' || c == 'o'
    ensures forall c :: c in Upper(body) ==> c == '0' || c == 'O'
  {
    forall c | c in Upper(body) ensures c == '0' || c == 'O' {
      var i :| 0 <= i < |body| && Upper(body)[i] == c;
      assert body[i] in body;
    }
  }

  /** Without that proviso validation is not idempotent: a body of '0', 'O' and 'o' with at least
      one 'o' (such as "o") is accepted, and its upper-cased form, all '0' and 'O', is then rejected. */
  lemma ValidatePlayerTagNotIdempotent(tag: string)
    requires tag != [] && |TagBody(tag)| <= 15
    requires forall c :: c in TagBody(tag) ==> c == '0' || c == 'O' || c == 'o'
    requires 'o' in TagBody(tag)
    ensures ValidatePlayerTag(tag).Ok?
    ensures ValidatePlayerTag(ValidatePlayerTag(tag).value) == Err(Error(400, TagNotAlphanumeric))
  {
    var body := TagBody(tag);
    assert forall c :: c in body ==> IsAlnum(c);
    ValidatePlayerTagAccepts(tag);
    assert body[0] != '#';
    TagBodyOfValidated(body);
    UpperZeroOh(body);
    ZeroAndOhOnlyRejected("#" + Upper(body));
  }

  // ---------------------------------------------------------------- validate_password

  predicate HasUpper(s: string) { exists i :: 0 <= i < |s| && IsUpper(s[i]) }
  predicate HasLower(s: string) { exists i :: 0 <= i < |s| && IsLower(s[i]) }
  predicate HasDigit(s: string) { exists i :: 0 <= i < |s| && IsDigit(s[i]) }
  predicate HasSpecial(s: string) { exists i :: 0 <= i < |s| && s[i] in Config.PasswordSpecialChars }

  /** None when the password is accepted, otherwise the error of the first rule it breaks. */
  function ValidatePassword(password: string): (r: Option<Error>)
    ensures r == None <==>
      Config.PasswordMinLength <= |password| <= Config.PasswordMaxLength &&
      HasUpper(password) && HasLower(password) && HasDigit(password) && HasSpecial(password)
    ensures r.Some? ==> r.value.status == 400
    ensures |password| < Config.PasswordMinLength ==> r == Some(Error(400, PasswordTooShort))
    ensures |password| > Config.PasswordMaxLength ==> r == Some(Error(400, PasswordTooLong))
    ensures r == Some(Error(400, PasswordNoUppercase)) <==>
      Config.PasswordMinLength <= |password| <= Config.PasswordMaxLength && !HasUpper(password)
    ensures r == Some(Error(400, PasswordNoLowercase)) <==>
      Config.PasswordMinLength <= |password| <= Config.PasswordMaxLength && HasUpper(password) &&
      !HasLower(password)
    ensures r == Some(Error(400, PasswordNoDigit)) <==>
      Config.PasswordMinLength <= |password| <= Config.PasswordMaxLength && HasUpper(password) &&
      HasLower(password) && !HasDigit(password)
    ensures r == Some(Error(400, PasswordNoSpecial)) <==>
      Config.PasswordMinLength <= |password| <= Config.PasswordMaxLength && HasUpper(password) &&
      HasLower(password) && HasDigit(password) && !HasSpecial(password)
  {
    if |password| < Config.PasswordMinLength then Some(Error(400, PasswordTooShort))
    else if |password| > Config.PasswordMaxLength then Some(Error(400, PasswordTooLong))
    else if !HasUpper(password) then Some(Error(400, PasswordNoUppercase))
    else if !HasLower(password) then Some(Error(400, PasswordNoLowercase))
    else if !HasDigit(password) then Some(Error(400, PasswordNoDigit))
    else if !HasSpecial(password) then Some(Error(400, PasswordNoSpecial))
    else None
  }

  lemma ValidPasswordAccepted()
    ensures ValidatePassword("Passw0rd!") == None
  {
    var p := "Passw0rd!";
    assert IsUpper(p[0]) && IsLower(p[1]) && IsDigit(p[5]);
    assert p[8] == Config.PasswordSpecialChars[0];
  }

  lemma LowercasePasswordNeedsUppercase()
    ensures ValidatePassword("password") == Some(Error(400, PasswordNoUppercase))
  {
  }

  // ---------------------------------------------------------------- sanitize_string

  /** s[:n], Python's slice: a negative n counts back from the end. */
  function PyPrefix(s: string, n: int): (r: string)
    ensures r <= s
    ensures 0 <= n ==> |r| == if n < |s| then n else |s|
  {
    if n >= 0 then (if n < |s| then s[..n] else s)
    else if |s| + n > 0 then s[..|s| + n] else []
  }

  function SanitizeString(value: string, maxLength: int): (r: string)
    ensures r <= Strip(value)
    ensures 0 <= maxLength ==> |r| <= maxLength
    ensures |Strip(value)| <= maxLength ==> r == Strip(value)
    ensures 0 <= maxLength < |Strip(value)| ==> r == Strip(value)[..maxLength]
  {
    if value == [] then []
    else
      var clean := Strip(value);
      if |clean| > maxLength then PyPrefix(clean, maxLength) else clean
  }

  /** A second pass only strips again: when the first pass cut the value, the cut can leave
      trailing blanks, which the second pass removes. */
  lemma SanitizeStringTwice(value: string, maxLength: int)
    requires 0 <= maxLength
    ensures SanitizeString(SanitizeString(value, maxLength), maxLength) == Strip(SanitizeString(value, maxLength))
  {
    var r := SanitizeString(value, maxLength);
    if r == [] {
      assert RStrip(r) == [] && LStrip([]) == [];
    }
  }
}

/** The empty-string / NULL convention used when std::string values are
    handed to GLib as `const char *` and read back.

    A C string is modelled as `Option<string>`: `None` is NULL and
    `Some(s)` points at characters `s`. Every reader of a C string stops at
    the first NUL character, so only the part of `s` before its first NUL is
    ever seen. */
module CStrings {

  datatype Option<+T> = None | Some(value: T)

  /** The characters a C reader sees in `s`: everything before the first NUL. */
  function UpToNul(s: string): (c: string)
    ensures '\0' !in c
    ensures c <= s
    ensures '\0' !in s ==> c == s
    ensures |c| < |s| ==> s[|c|] == '\0'
  {
    if s == [] || s[0] == '\0' then [] else [s[0]] + UpToNul(s[1..])
  }

  /** string2C_char: the empty string becomes NULL, any other string a
      pointer to its characters. (The C++ returns `c_str()` of a by-value
      parameter, a pointer that dangles once the call returns; only the
      intended mapping is modelled here.) */
  function StringToCChar(s: string): (p: Option<string>)
    ensures p == None <==> s == ""
    ensures p.Some? ==> p.value == UpToNul(s)
  {
    if s == "" then None else Some(UpToNul(s))
  }

  /** C_char2string: NULL becomes the empty string, any other pointer the
      characters up to its terminating NUL. */
  function CCharToString(p: Option<string>): (s: string)
    ensures p == None ==> s == ""
    ensures p.Some? ==> s == UpToNul(p.value)
  {
    match p
    case None => ""
    case Some(c) => UpToNul(c)
  }

  /** Converting to a C string and back gives the string again exactly when
      it holds no NUL character. */
  lemma CCharRoundTrip(s: string)
    ensures CCharToString(StringToCChar(s)) == s <==> '\0' !in s
  {
    if s != "" {
      assert UpToNul(UpToNul(s)) == UpToNul(s);
    }
  }

  /** Converting a NUL-free C string to a std::string and back gives the same
      characters, or NULL again, except for a non-NULL empty string, which
      comes back NULL. (In C++ the pointer returned is a new one, and it
      dangles; only what it points at is compared here.) */
  lemma StringRoundTrip(p: Option<string>)
    requires p.Some? ==> '\0' !in p.value
    ensures StringToCChar(CCharToString(p)) == p <==> p != Some("")
  {
  }
}

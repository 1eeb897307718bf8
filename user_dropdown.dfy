/**
 * The avatar menu of the signed-in user: the name shown (the player name, else the account's full
 * name, else the part of the e-mail address before '@', else "User") and the avatar's initials.
 */
module UserDropdown {
  import opened Wrappers
  import opened Strings

  /** What the menu reads from the signed-in account. */
  datatype AuthUser = AuthUser(email: Option<string>, fullName: Option<string>)

  datatype DropdownView = DropdownView(displayName: string, initials: string)

  /** JavaScript truthiness of an optional string: present and not empty. */
  predicate Truthy(s: Option<string>) {
    s.Some? && s.value != []
  }

  /** `user.email?.split("@")[0]`: absent without an e-mail address, and otherwise the address up
      to, and not including, its first '@' (the whole address when it has none). */
  function EmailName(email: Option<string>): (r: Option<string>)
    ensures r.Some? <==> email.Some?
    ensures r.Some? ==> && |r.value| <= |email.value| && r.value == email.value[..|r.value|]
                        && '@' !in r.value
                        && (|r.value| == |email.value| || email.value[|r.value|] == '@')
  {
    if email.Some? then
      FirstPiece(email.value, '@');
      Some(SplitOn(email.value, '@')[0])
    else None
  }

  /** The `||` chain: the first truthy value among the player name, the full name and the e-mail
      name, and "User" when none is. The result is never empty; when it comes from the e-mail it is
      the address up to, and not including, its first '@'. */
  function DisplayName(playerName: Option<string>, user: AuthUser): (r: string)
    ensures r != []
    ensures Truthy(playerName) ==> r == playerName.value
    ensures !Truthy(playerName) && Truthy(user.fullName) ==> r == user.fullName.value
    ensures !Truthy(playerName) && !Truthy(user.fullName) && Truthy(EmailName(user.email))
            ==> && |r| <= |user.email.value| && r == user.email.value[..|r|] && '@' !in r
                && (|r| == |user.email.value| || user.email.value[|r|] == '@')
    ensures !Truthy(playerName) && !Truthy(user.fullName) && !Truthy(EmailName(user.email)) ==> r == "User"
  {
    if Truthy(playerName) then playerName.value
    else if Truthy(user.fullName) then user.fullName.value
    else if Truthy(EmailName(user.email)) then EmailName(user.email).value
    else "User"
  }

  /** `parts.map((n) => n[0]).join("")`: the first character of every part; an empty part gives
      `undefined`, which `join` writes as nothing. There is at most one character per part, and
      exactly one, the part's first, when no part is empty. */
  function FirstChars(parts: seq<string>): (r: string)
    ensures |r| <= |parts|
    ensures (forall k :: 0 <= k < |parts| ==> parts[k] != [])
            ==> |r| == |parts| && forall k :: 0 <= k < |r| ==> r[k] == parts[k][0]
  {
    if parts == [] then []
    else (if parts[0] != [] then [parts[0][0]] else []) + FirstChars(parts[1..])
  }

  /** The characters of `s` that start a word: not a space, and first in `s` (when `atWordStart`)
      or right after a space. */
  function WordStartsFrom(s: string, atWordStart: bool): string {
    if s == [] then []
    else (if s[0] != ' ' && atWordStart then [s[0]] else []) + WordStartsFrom(s[1..], s[0] == ' ')
  }

  function WordStarts(s: string): string {
    WordStartsFrom(s, true)
  }

  /** Taking the first character of every space-separated piece picks exactly the characters
      that start a word, in order. */
  lemma {:induction false} FirstCharsOfWords(s: string)
    ensures FirstChars(SplitOn(s, ' ')) == WordStartsFrom(s, true)
    ensures FirstChars(SplitOn(s, ' ')[1..]) == WordStartsFrom(s, false)
  {
    if s != [] {
      var rest := SplitOn(s[1..], ' ');
      FirstCharsOfWords(s[1..]);
      if s[0] == ' ' {
        assert SplitOn(s, ' ') == [[]] + rest;
        assert ([[]] + rest)[1..] == rest;
      } else {
        var parts := SplitOn(s, ' ');
        assert parts == [[s[0]] + rest[0]] + rest[1..];
        assert parts[1..] == rest[1..];
        assert parts[0][0] == s[0];
      }
    }
  }

  /** The avatar initials: the word-initial characters of the display name, upper-cased, at most two. */
  function Initials(displayName: string): (r: string)
    ensures |r| <= 2
    ensures forall i :: 0 <= i < |r| ==> !('a' <= r[i] <= 'z')
    ensures |r| == if |WordStarts(displayName)| < 2 then |WordStarts(displayName)| else 2
    ensures forall i :: 0 <= i < |r| ==> r[i] == UpperChar(WordStarts(displayName)[i])
  {
    FirstCharsOfWords(displayName);
    var all := ToUpper(FirstChars(SplitOn(displayName, ' ')));
    if |all| <= 2 then all else all[..2]
  }

  /** What the menu shows; nothing at all without a signed-in user. */
  function View(user: Option<AuthUser>, playerName: Option<string>): (v: Option<DropdownView>)
    ensures v.None? <==> user.None?
    ensures v.Some? ==> v.value.displayName != [] && |v.value.initials| <= 2
    ensures v.Some? && v.value.displayName[0] != ' ' ==> v.value.initials != []
  {
    if user.None? then None
    else
      var name := DisplayName(playerName, user.value);
      Some(DropdownView(name, Initials(name)))
  }
}

/** The pure rules of shared/player-data.js: trimming and validating the
    nick and email a player enters, the merge of stored data with updates,
    and the "has player data" test. localStorage itself is not modelled:
    what it holds is passed in. */
module PlayerStore {

  import opened Common

  /** White space removed by String.prototype.trim (the common code points). */
  predicate IsSpace(c: char)
  {
    c == ' ' || c == '\t' || c == '\n' || c == '\r' || c == '\U{000B}' || c == '\U{000C}' ||
    c == '\U{00A0}' || c == '\U{FEFF}' || c == '\U{2028}' || c == '\U{2029}' ||
    c == '\U{1680}' || ('\U{2000}' <= c <= '\U{200A}') || c == '\U{202F}' ||
    c == '\U{205F}' || c == '\U{3000}'
  }

  /** Drop leading white space. */
  function TrimStart(s: string): (r: string)
    ensures |r| <= |s| && r == s[|s| - |r|..]
    ensures r == [] || !IsSpace(r[0])
    ensures forall i :: 0 <= i < |s| - |r| ==> IsSpace(s[i])
  {
    if s != [] && IsSpace(s[0]) then TrimStart(s[1..]) else s
  }

  /** Drop trailing white space. */
  function TrimEnd(s: string): (r: string)
    ensures |r| <= |s| && r == s[..|r|]
    ensures r == [] || !IsSpace(r[|r| - 1])
    ensures forall i :: |r| <= i < |s| ==> IsSpace(s[i])
  {
    if s != [] && IsSpace(s[|s| - 1]) then TrimEnd(s[..|s| - 1]) else s
  }

  /** String.prototype.trim: the middle part of `s` between white space. */
  function Trim(s: string): (r: string)
    ensures |r| <= |s|
    ensures r == [] || (!IsSpace(r[0]) && !IsSpace(r[|r| - 1]))
    ensures (forall i :: 0 <= i < |s| ==> IsSpace(s[i])) <==> r == []
    ensures exists i :: Encloses(s, i, r)
  {
    var a := TrimStart(s);
    assert a != [] ==> a[0] == s[|s| - |a|];
    var r := TrimEnd(a);
    var i := |s| - |a|;
    assert r == s[i..i + |r|] by {
      assert a == s[i..];
    }
    assert forall k :: i + |r| <= k < |s| ==> s[k] == a[k - i];
    assert Encloses(s, i, r);
    r
  }

  /** `r` is the part of `s` from index `i` on, with only white space
      before and after it. */
  predicate Encloses(s: string, i: int, r: string)
  {
    0 <= i <= |s| - |r| && r == s[i..i + |r|] &&
    (forall k :: 0 <= k < i ==> IsSpace(s[k])) &&
    (forall k :: i + |r| <= k < |s| ==> IsSpace(s[k]))
  }

  /** Trimming twice is trimming once. */
  lemma TrimIdempotent(s: string)
    ensures Trim(Trim(s)) == Trim(s)
  {
    var t := Trim(s);
    if t != [] {
      assert TrimStart(t) == t;
      assert TrimEnd(t) == t;
    }
  }

  /** A string with no white space at either end is its own trim. */
  lemma TrimKeeps(s: string)
    requires s != [] && !IsSpace(s[0]) && !IsSpace(s[|s| - 1])
    ensures Trim(s) == s
  {
    assert TrimStart(s) == s;
  }

  /** `(x || '').trim()` */
  function TrimOrEmpty(x: Option<string>): string
  {
    if x.Some? then Trim(x.value) else ""
  }

  /** The five refusals of validatePlayerData, in the order they are checked. */
  datatype DataError = NickRequired | NickTooShort | NickTooLong | EmailRequired | EmailTooLong

  /** validatePlayerData: None means valid. Nick rules come before email
      rules, and within each the order is required, too short, too long. */
  function Validate(nick: Option<string>, email: Option<string>): (err: Option<DataError>)
    ensures err.None? <==>
              2 <= |TrimOrEmpty(nick)| <= 20 && 1 <= |TrimOrEmpty(email)| <= 40
    ensures err == Some(NickRequired) <==> TrimOrEmpty(nick) == ""
    ensures err == Some(NickTooShort) <==> |TrimOrEmpty(nick)| == 1
    ensures err == Some(NickTooLong) <==> |TrimOrEmpty(nick)| > 20
    ensures err == Some(EmailRequired) <==>
              2 <= |TrimOrEmpty(nick)| <= 20 && TrimOrEmpty(email) == ""
    ensures err == Some(EmailTooLong) <==>
              2 <= |TrimOrEmpty(nick)| <= 20 && |TrimOrEmpty(email)| > 40
  {
    var n := TrimOrEmpty(nick);
    var e := TrimOrEmpty(email);
    if n == "" then Some(NickRequired)
    else if |n| < 2 then Some(NickTooShort)
    else if |n| > 20 then Some(NickTooLong)
    else if e == "" then Some(EmailRequired)
    else if |e| > 40 then Some(EmailTooLong)
    else None
  }

  /** Leading white space never changes the verdict. */
  lemma ValidateIgnoresLeadingSpace(nick: string, email: string, pad: string)
    requires forall i :: 0 <= i < |pad| ==> IsSpace(pad[i])
    ensures Validate(Some(pad + nick), Some(pad + email)) == Validate(Some(nick), Some(email))
  {
    StartPadded(nick, pad);
    StartPadded(email, pad);
  }

  lemma {:induction false} StartPadded(s: string, pad: string)
    requires forall i :: 0 <= i < |pad| ==> IsSpace(pad[i])
    ensures TrimStart(pad + s) == TrimStart(s)
  {
    if pad != [] {
      PadTail(pad);
      StartPadded(s, pad[1..]);
      DropLeadingSpace(pad, s);
    } else {
      assert pad + s == s;
    }
  }

  /** The rest of a run of white space is white space. */
  lemma PadTail(pad: string)
    requires pad != [] && forall i :: 0 <= i < |pad| ==> IsSpace(pad[i])
    ensures forall i :: 0 <= i < |pad[1..]| ==> IsSpace(pad[1..][i])
  {
    forall i | 0 <= i < |pad[1..]|
      ensures IsSpace(pad[1..][i])
    {
      assert pad[1..][i] == pad[i + 1];
    }
  }

  /** TrimStart skips one leading white-space character. */
  lemma DropLeadingSpace(pad: string, s: string)
    requires pad != [] && IsSpace(pad[0])
    ensures TrimStart(pad + s) == TrimStart(pad[1..] + s)
  {
    var t := pad + s;
    assert t[0] == pad[0];
    assert t[1..] == pad[1..] + s;
  }

  /** updatePlayerData's `{ ...current, ...updates }` on a missing or stored
      record. */
  function Merge<V>(current: Option<map<string, V>>, updates: map<string, V>): (r: map<string, V>)
    ensures r.Keys == updates.Keys + (if current.Some? then current.value.Keys else {})
    ensures forall k :: k in updates ==> r[k] == updates[k]
    ensures current.Some? ==> forall k :: k in current.value && k !in updates ==> r[k] == current.value[k]
  {
    if current.Some? then current.value + updates else updates
  }

  /** hasPlayerData: stored data with a non-empty nick and a non-empty email. */
  predicate HasPlayerData(stored: Option<map<string, string>>)
  {
    stored.Some? && "nick" in stored.value && stored.value["nick"] != "" &&
    "email" in stored.value && stored.value["email"] != ""
  }

  /** Data saved after a successful validation is recognised as present. */
  lemma ValidDataIsPresent(nick: string, email: string)
    requires Validate(Some(nick), Some(email)).None?
    ensures HasPlayerData(Some(map["nick" := Trim(nick), "email" := Trim(email)]))
  {
  }
}

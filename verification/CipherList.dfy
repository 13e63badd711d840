/** The cipher suite string handed to OpenSSL: the selected names in order, joined by colons. The
    names are those of section B.4 of RFC 8446. */
module CipherList {

  datatype Choice = Suites(list: string) | Refused

  const MAX_SUITES: nat := 5
  const BUFFER_SIZE: nat := 256

  /** `suite_to_name`; any other number has no name. */
  function SuiteName(suite: int): string {
    if suite == 0 then "TLS_AES_128_GCM_SHA256"
    else if suite == 1 then "TLS_AES_256_GCM_SHA384"
    else if suite == 2 then "TLS_CHACHA20_POLY1305_SHA256"
    else if suite == 3 then "TLS_AES_128_CCM_SHA256"
    else if suite == 4 then "TLS_AES_128_CCM_8_SHA256"
    else ""
  }

  predicate HasName(suite: int) {
    0 <= suite < 5
  }

  /** What section B.4 of RFC 8446 says of the code points 0x1301 to 0x1305: cipher, mode and hash. */
  function Cipher(code: int): string {
    if code == 0x1303 then "CHACHA20" else if code == 0x1302 then "AES_256" else "AES_128"
  }

  function CipherMode(code: int): string {
    if code == 0x1303 then "POLY1305" else if code < 0x1303 then "GCM" else if code == 0x1304 then "CCM" else "CCM_8"
  }

  function Hash(code: int): string {
    if code == 0x1302 then "SHA384" else "SHA256"
  }

  function Registered(code: int): string {
    "TLS_" + Cipher(code) + "_" + CipherMode(code) + "_" + Hash(code)
  }

  lemma Aes128Gcm()
    ensures Registered(0x1301) == "TLS_AES_128_GCM_SHA256"
  {
  }

  lemma Aes256Gcm()
    ensures Registered(0x1302) == "TLS_AES_256_GCM_SHA384"
  {
  }

  lemma ChaCha20()
    ensures Registered(0x1303) == "TLS_CHACHA20_POLY1305_SHA256"
  {
  }

  lemma Aes128Ccm()
    ensures Registered(0x1304) == "TLS_AES_128_CCM_SHA256"
  {
  }

  lemma Aes128Ccm8()
    ensures Registered(0x1305) == "TLS_AES_128_CCM_8_SHA256"
  {
  }

  /** The suites are numbered in the order of their code points. */
  lemma NamesFollowCodePoints(suite: int)
    requires HasName(suite)
    ensures SuiteName(suite) == Registered(0x1301 + suite)
  {
    if suite == 0 { Aes128Gcm(); }
    else if suite == 1 { Aes256Gcm(); }
    else if suite == 2 { ChaCha20(); }
    else if suite == 3 { Aes128Ccm(); }
    else { Aes128Ccm8(); }
  }

  function Names(suites: seq<int>): (names: seq<string>)
    ensures |names| == |suites|
  {
    if suites == [] then [] else Names(suites[..|suites| - 1]) + [SuiteName(suites[|suites| - 1])]
  }

  function Join(names: seq<string>): string {
    if |names| == 0 then "" else if |names| == 1 then names[0]
    else Join(names[..|names| - 1]) + ":" + names[|names| - 1]
  }

  /** The pieces between colons. */
  function Split(list: string): (names: seq<string>)
    ensures |names| > 0
  {
    if list == "" then [""]
    else
      var front, last := Split(list[..|list| - 1]), list[|list| - 1];
      if last == ':' then front + [""]
      else front[..|front| - 1] + [front[|front| - 1] + [last]]
  }

  /** The pieces of `front` with `more` appended to the last one. */
  function Extended(front: seq<string>, more: string): seq<string>
    requires front != []
  {
    front[..|front| - 1] + [front[|front| - 1] + more]
  }

  lemma ExtendedMore(front: seq<string>, more: string, last: char)
    requires front != []
    ensures Extended(Extended(front, more), [last]) == Extended(front, more + [last])
  {
    assert (front[|front| - 1] + more) + [last] == front[|front| - 1] + (more + [last]);
  }

  lemma ExtendedNone(front: seq<string>)
    requires front != []
    ensures Extended(front, "") == front
  {
    assert front[|front| - 1] + "" == front[|front| - 1];
  }

  /** The piece under way after one character more. */
  lemma SplitNext(list: string, last: char, whole: string)
    requires whole == list + [last]
    ensures Split(whole) == if last == ':' then Split(list) + [""] else Extended(Split(list), [last])
  {
    assert whole[..|whole| - 1] == list;
  }

  lemma AppendedNext(list: string, name: string, last: char)
    ensures list + (name + [last]) == (list + name) + [last]
  {
  }

  lemma {:induction false} SplitAppend(list: string, name: string, whole: string)
    requires ':' !in name && whole == list + name
    ensures Split(whole) == Extended(Split(list), name)
    decreases |name|
  {
    if name == "" {
      assert whole == list;
      ExtendedNone(Split(list));
    } else {
      var n := |name| - 1;
      assert name == name[..n] + [name[n]];
      AppendedNext(list, name[..n], name[n]);
      SplitAppend(list, name[..n], list + name[..n]);
      SplitNext(list + name[..n], name[n], whole);
      ExtendedMore(Split(list), name[..n], name[n]);
    }
  }

  lemma SplitJoined(list: string, last: string)
    requires ':' !in last
    ensures Split(list + ":" + last) == Split(list) + [last]
  {
    SplitNext(list, ':', list + ":");
    SplitAppend(list + ":", last, list + ":" + last);
    FreshPiece(Split(list), last);
  }

  lemma FreshPiece(front: seq<string>, last: string)
    ensures Extended(front + [""], last) == front + [last]
  {
    assert "" + last == last;
  }

  lemma SplitSingle(name: string)
    requires ':' !in name
    ensures Split(name) == [name]
  {
    assert "" + name == name;
    SplitAppend("", name, name);
    FreshPiece([], name);
  }

  lemma JoinEnd(front: seq<string>, last: string)
    requires front != []
    ensures Join(front + [last]) == Join(front) + ":" + last
  {
    assert (front + [last])[..|front|] == front;
  }

  /** Splitting the string recovers the list: nothing is lost, merged or reordered. */
  lemma {:induction false} SplitRecovers(names: seq<string>)
    requires names != [] && forall i :: 0 <= i < |names| ==> ':' !in names[i]
    ensures Split(Join(names)) == names
  {
    if |names| == 1 {
      SplitSingle(names[0]);
    } else {
      var front, last := names[..|names| - 1], names[|names| - 1];
      SplitRecovers(front);
      assert front + [last] == names;
      JoinEnd(front, last);
      SplitJoined(Join(front), last);
    }
  }

  lemma NameHasNoColon(suite: int)
    ensures ':' !in SuiteName(suite)
  {
  }

  lemma {:induction false} NamesHaveNoColon(suites: seq<int>)
    ensures forall i :: 0 <= i < |suites| ==> ':' !in Names(suites)[i]
  {
    if suites != [] {
      NamesHaveNoColon(suites[..|suites| - 1]);
      NameHasNoColon(suites[|suites| - 1]);
    }
  }

  /** One step of the loop: a separating colon if needed, then the name. */
  method AppendName(buf: array<char>, off: nat, separate: bool, name: string) returns (end: nat)
    requires off + |name| + 1 < buf.Length
    modifies buf
    ensures end == off + |name| + (if separate then 1 else 0) && end < buf.Length
    ensures buf[..end] == old(buf[..off]) + (if separate then ":" else "") + name
  {
    end := off;
    if separate {
      buf[end] := ':';
      end := end + 1;
    }
    forall j | 0 <= j < |name| { buf[end + j] := name[j]; }
    end := end + |name|;
  }

  /** The list of the first `i` suites. */
  function ListUpTo(suites: seq<int>, i: nat): string
    requires i <= |suites|
  {
    Join(Names(suites[..i]))
  }

  lemma ListMore(suites: seq<int>, i: nat)
    requires i < |suites|
    ensures ListUpTo(suites, i + 1) ==
            (if i > 0 then ListUpTo(suites, i) + ":" else "") + SuiteName(suites[i])
  {
    assert suites[..i + 1][..i] == suites[..i];
    assert Names(suites[..i + 1])[..i] == Names(suites[..i]);
    assert "" + SuiteName(suites[i]) == SuiteName(suites[i]);
  }

  lemma NameIsShort(suite: int)
    ensures |SuiteName(suite)| <= 28
    ensures SuiteName(suite) == "" <==> !HasName(suite)
  {
  }

  ghost predicate Filled(buf: array<char>, off: nat, suites: seq<int>, i: nat)
    reads buf
  {
    i <= |suites| && off <= 29 * i && off <= buf.Length && (i == 0 ==> off == 0) &&
    buf[..off] == ListUpTo(suites, i)
  }

  /** One iteration of the loop: only a number without a name is refused, although the code also
      tests for a full buffer. */
  method AddSuite(buf: array<char>, off: nat, suites: seq<int>, i: nat) returns (refused: bool, end: nat)
    requires buf.Length == BUFFER_SIZE && i < |suites| <= MAX_SUITES && Filled(buf, off, suites, i)
    modifies buf
    ensures refused <==> !HasName(suites[i])
    ensures !refused ==> Filled(buf, end, suites, i + 1)
  {
    var name := SuiteName(suites[i]);
    NameIsShort(suites[i]);
    if name == "" { return true, off; }
    if off + |name| + 1 >= BUFFER_SIZE { return true, off; }
    end := AppendName(buf, off, i > 0, name);
    ListMore(suites, i);
    refused := false;
    assert buf[..end] == (if i > 0 then ListUpTo(suites, i) + ":" else "") + name;
  }

  /** The custom list is refused exactly if it is empty, too long or holds a number without a name;
      the exit for a full buffer is never taken, and every write stays inside it. */
  method CustomSuites(suites: seq<int>) returns (choice: Choice)
    ensures choice == if 0 < |suites| <= MAX_SUITES && forall i :: 0 <= i < |suites| ==> HasName(suites[i])
                      then Suites(Join(Names(suites))) else Refused
  {
    if |suites| == 0 || |suites| > MAX_SUITES { return Refused; }
    var buf := new char[BUFFER_SIZE];
    var off: nat, refused := 0, false;
    for i := 0 to |suites|
      invariant Filled(buf, off, suites, i)
      invariant forall j :: 0 <= j < i ==> HasName(suites[j])
    {
      refused, off := AddSuite(buf, off, suites, i);
      if refused { return Refused; }
    }
    assert suites[..|suites|] == suites;
    buf[off] := '\0';
    return Suites(buf[..off]);
  }

  /** The string given to OpenSSL, split at its colons, is the list of names that was asked for. */
  lemma ListSplitsIntoNames(suites: seq<int>)
    requires suites != []
    ensures Split(Join(Names(suites))) == Names(suites)
  {
    NamesHaveNoColon(suites);
    SplitRecovers(Names(suites));
  }
}

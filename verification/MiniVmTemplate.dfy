// The substitution of \n and \t in an e-mail body template, done in place on a C string
// (message_template_parse_emailbody of apps/app_minivm.c).
module MiniVmTemplate {
  import opened Prelude

  const BACKSLASH := '\\'

  predicate IsEscape(s: string) {
    |s| > 1 && s[0] == BACKSLASH && (s[1] == 'n' || s[1] == 't')
  }

  function Unescape(s: string): (r: string)
    ensures |r| <= |s|
  {
    if s == "" then ""
    else if IsEscape(s) then [if s[1] == 'n' then '\n' else '\t'] + Unescape(s[2..])
    else [s[0]] + Unescape(s[1..])
  }

  // The first escape of a template, whatever follows it: \n is a new line and \t a tab, and any other
  // backslash is left alone.
  lemma FirstEscape(before: string, c: char, rest: string)
    requires BACKSLASH !in before
    ensures var template := before + [BACKSLASH, c] + rest;
      Unescape(template) ==
        if c == 'n' then before + "\n" + Unescape(rest)
        else if c == 't' then before + "\t" + Unescape(rest)
        else before + [BACKSLASH] + Unescape([c] + rest)
  {
    var template, n := before + [BACKSLASH, c] + rest, |before|;
    var tail := template[n..];
    assert template[..n] == before && tail == [BACKSLASH, c] + rest;
    SkipPlain(template, n);
    assert tail[1..] == [c] + rest && tail[2..] == rest;
  }

  // What an administrator writes to get a text.
  function Escape(t: string): string {
    if t == "" then ""
    else if t[0] == '\n' then [BACKSLASH, 'n'] + Escape(t[1..])
    else if t[0] == '\t' then [BACKSLASH, 't'] + Escape(t[1..])
    else [t[0]] + Escape(t[1..])
  }

  // No backslash directly before an n or a t.
  predicate Plain(t: string) {
    forall i :: 0 <= i < |t| - 1 && t[i] == BACKSLASH ==> t[i + 1] != 'n' && t[i + 1] != 't'
  }

  lemma PlainTail(t: string)
    requires t != ""
    ensures Plain(t) <==> !IsEscape(t) && Plain(t[1..])
  {
    if Plain(t) {
      forall i | 0 <= i < |t[1..]| - 1 && t[1..][i] == BACKSLASH
        ensures t[1..][i + 1] != 'n' && t[1..][i + 1] != 't'
      {
        assert t[i + 1] == BACKSLASH;
      }
    }
    if !IsEscape(t) && Plain(t[1..]) {
      forall i | 0 <= i < |t| - 1 && t[i] == BACKSLASH
        ensures t[i + 1] != 'n' && t[i + 1] != 't'
      {
        if i > 0 {
          assert t[1..][i - 1] == BACKSLASH;
        }
      }
    }
  }

  // A result never holds another escape.
  lemma {:induction false} UnescapedPlain(s: string)
    ensures Plain(Unescape(s))
    ensures s != "" ==> Unescape(s) != "" && (Unescape(s)[0] == s[0] || IsEscape(s))
  {
    if s != "" {
      var n := if IsEscape(s) then 2 else 1;
      UnescapedPlain(s[n..]);
      PlainTail(Unescape(s));
      assert Unescape(s)[1..] == Unescape(s[n..]);
    }
  }

  lemma {:induction false} PlainUnchanged(t: string)
    requires Plain(t)
    ensures Unescape(t) == t
  {
    if t != "" {
      PlainTail(t);
      PlainUnchanged(t[1..]);
    }
  }

  // A second pass changes nothing.
  lemma Idempotent(s: string)
    ensures Unescape(Unescape(s)) == Unescape(s)
  {
    UnescapedPlain(s);
    PlainUnchanged(Unescape(s));
  }

  lemma {:induction false} PlainRoundTrip(t: string)
    requires Plain(t)
    ensures Unescape(Escape(t)) == t
  {
    if t != "" {
      PlainTail(t);
      PlainRoundTrip(t[1..]);
      if t[0] == '\n' || t[0] == '\t' {
        assert Escape(t)[2..] == Escape(t[1..]);
      } else {
        assert Escape(t)[1..] == Escape(t[1..]);
      }
    }
  }

  // A text can be had from a template exactly when it is plain, and then its escaped form is one.
  lemma ReachableIff(t: string)
    ensures Unescape(Escape(t)) == t <==> Plain(t)
    ensures (exists s :: Unescape(s) == t) <==> Plain(t)
  {
    if Plain(t) {
      PlainRoundTrip(t);
    }
    if s :| Unescape(s) == t {
      UnescapedPlain(s);
    }
    UnescapedPlain(Escape(t));
  }

  // ------------------------------------------------------------------------ the code in place

  // The text from the start of the buffer to the terminator.
  ghost predicate IsCString(a: seq<char>, s: string) {
    |s| < |a| && a[|s|] == '\0' && forall i :: 0 <= i < |s| ==> a[i] == s[i] && s[i] != '\0'
  }

  method Strchr(a: array<char>, from: nat, ghost s: string) returns (at: Option<nat>)
    requires IsCString(a[..], s) && from <= |s|
    ensures at == None ==> BACKSLASH !in s[from..]
    ensures at.Some? ==> from <= at.value < |s| && s[at.value] == BACKSLASH && BACKSLASH !in s[from..at.value]
  {
    var i := from;
    while a[i] != '\0' && a[i] != BACKSLASH
      invariant from <= i <= |s| && BACKSLASH !in s[from..i]
      decreases |s| - i
    {
      assert a[i] == a[..][i] == s[i];
      i := i + 1;
    }
    assert a[i] == a[..][i];
    at := if a[i] == BACKSLASH then Some(i) else None;
  }

  // memmove(p + 1, p + 2, strlen(p + 2) + 1): the text closes up by one character.
  method CloseUp(a: array<char>, p: nat, ghost s: string)
    requires IsCString(a[..], s) && p + 1 < |s|
    modifies a
    ensures IsCString(a[..], s[..p + 1] + s[p + 2..])
  {
    ghost var was := a[..];
    var i, last := p + 2, false;
    while !last
      invariant p + 2 <= i <= |s| + 1 && (last <==> i == |s| + 1)
      invariant forall j :: 0 <= j <= p ==> a[j] == was[j]
      invariant forall j :: p + 2 <= j < i ==> a[j - 1] == was[j]
      invariant forall j :: i - 1 <= j < a.Length ==> a[j] == was[j]
      decreases |s| + 1 - i
    {
      assert a[i] == was[i] && (i < |s| ==> was[i] == s[i]);
      last := a[i] == '\0';
      a[i - 1] := a[i];
      i := i + 1;
    }
  }

  // The two characters of an escape become one.
  method Substitute(a: array<char>, p: nat, c: char, ghost s: string)
    requires IsCString(a[..], s) && p + 1 < |s| && c != '\0'
    modifies a
    ensures IsCString(a[..], s[..p] + [c] + s[p + 2..])
  {
    CloseUp(a, p, s);
    ghost var closed := s[..p + 1] + s[p + 2..];
    assert closed[p := c] == s[..p] + [c] + s[p + 2..];
    a[p] := c;
  }

  lemma {:induction false} SkipPlain(s: string, w: nat)
    requires w <= |s| && BACKSLASH !in s[..w]
    ensures Unescape(s) == s[..w] + Unescape(s[w..])
  {
    if w > 0 {
      assert s[1..][..w - 1] == s[..w][1..] && s[1..][w - 1..] == s[w..];
      SkipPlain(s[1..], w - 1);
      assert [s[0]] + s[1..][..w - 1] == s[..w];
    }
  }

  // Everything before `read` is in its final form.
  ghost predicate DoneUpTo(s: string, read: nat, result: string) {
    read <= |s| && result == s[..read] + Unescape(s[read..])
  }

  lemma SplitAgain(s: string, read: nat, write: nat, rest: string)
    requires read <= write <= |s|
    ensures s[read..][..write - read] == s[read..write] && s[read..][write - read..] == s[write..]
    ensures s[..read] + (s[read..write] + rest) == s[..write] + rest
  {
  }

  lemma FoundNext(s: string, read: nat, write: nat, result: string)
    requires DoneUpTo(s, read, result) && read <= write <= |s| && BACKSLASH !in s[read..write]
    ensures DoneUpTo(s, write, result)
  {
    SkipPlain(s[read..], write - read);
    SplitAgain(s, read, write, Unescape(s[write..]));
  }

  lemma Substituted(s: string, write: nat, result: string)
    requires DoneUpTo(s, write, result) && write < |s|
    ensures IsEscape(s[write..]) ==>
      DoneUpTo(s[..write] + [if s[write + 1] == 'n' then '\n' else '\t'] + s[write + 2..], write + 1, result)
    ensures !IsEscape(s[write..]) ==> DoneUpTo(s, write + 1, result)
  {
    if IsEscape(s[write..]) {
      var c := if s[write + 1] == 'n' then '\n' else '\t';
      var shorter := s[..write] + [c] + s[write + 2..];
      assert s[write..][2..] == s[write + 2..] == shorter[write + 1..];
      assert shorter[..write + 1] == s[..write] + [c];
    } else {
      assert s[write..][1..] == s[write + 1..];
      assert s[..write + 1] == s[..write] + [s[write]];
    }
  }

  // message_template_parse_emailbody
  method ParseEmailBody(configuration: string) returns (emailbody: array<char>)
    requires '\0' !in configuration
    ensures IsCString(emailbody[..], Unescape(configuration))
  {
    emailbody := Strdup(configuration);
    ghost var s, result := configuration, Unescape(configuration);
    var read: nat := 0;
    var found := Strchr(emailbody, read, s);
    while found.Some?
      invariant IsCString(emailbody[..], s) && fresh(emailbody) && DoneUpTo(s, read, result)
      invariant found == None ==> BACKSLASH !in s[read..]
      invariant found.Some? ==> read <= found.value < |s| && s[found.value] == BACKSLASH
      invariant found.Some? ==> BACKSLASH !in s[read..found.value]
      decreases |s| - read, found.Some?
    {
      var write := found.value;
      FoundNext(s, read, write, result);
      Substituted(s, write, result);
      match emailbody[write + 1] {
      case 'n' =>
        Substitute(emailbody, write, '\n', s);
        s := s[..write] + ['\n'] + s[write + 2..];
      case 't' =>
        Substitute(emailbody, write, '\t', s);
        s := s[..write] + ['\t'] + s[write + 2..];
      case _ =>
      }
      read := write + 1;
      found := Strchr(emailbody, read, s);
    }
    FoundNext(s, read, |s|, result);
    assert s[read..|s|] == s[read..] && s[..|s|] + "" == s && s[|s|..] == "";
  }

  method Strdup(text: string) returns (a: array<char>)
    requires '\0' !in text
    ensures fresh(a) && IsCString(a[..], text)
  {
    a := new char[|text| + 1];
    for i := 0 to |text|
      invariant forall j :: 0 <= j < i ==> a[j] == text[j]
    {
      a[i] := text[i];
    }
    a[|text|] := '\0';
  }
}

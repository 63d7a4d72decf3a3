// Matching and collecting directory entries (apps/app_directory.c).
module DirectorySearch {
  import opened Prelude

  const MAX_EXTENSION := 80
  const MAX_CONTEXT := 80
  const KEY_SIZE := 50

  // ------------------------------------------------------------------------- keypad matching

  datatype Key = Digit(digit: char) | Skipped | Unmapped

  // The digit a character is typed with. Blanks and control characters are skipped, and so are
  // bytes from 128 up, which are negative where char is signed.
  function KeyFor(c: char): Key {
    var u := if 'a' <= c <= 'z' then c - 'a' + 'A' else c;
    if '1' <= u <= '9' then Digit(u)
    else if 'A' <= u <= 'C' then Digit('2')
    else if 'D' <= u <= 'F' then Digit('3')
    else if 'G' <= u <= 'I' then Digit('4')
    else if 'J' <= u <= 'L' then Digit('5')
    else if 'M' <= u <= 'O' then Digit('6')
    else if 'P' <= u <= 'S' then Digit('7')
    else if 'T' <= u <= 'V' then Digit('8')
    else if 'W' <= u <= 'Z' then Digit('9')
    else if ' ' < u <= '\U{7F}' then Unmapped
    else Skipped
  }

  // The letters on the keys of a telephone, in either case; 1 has none, and 0 is not typed for anything.
  lemma Keypad(c: char)
    ensures KeyFor(c) == Digit('1') <==> c == '1'
    ensures KeyFor(c) == Digit('2') <==> c in "2abcABC"
    ensures KeyFor(c) == Digit('3') <==> c in "3defDEF"
    ensures KeyFor(c) == Digit('4') <==> c in "4ghiGHI"
    ensures KeyFor(c) == Digit('5') <==> c in "5jklJKL"
    ensures KeyFor(c) == Digit('6') <==> c in "6mnoMNO"
    ensures KeyFor(c) == Digit('7') <==> c in "7pqrsPQRS"
    ensures KeyFor(c) == Digit('8') <==> c in "8tuvTUV"
    ensures KeyFor(c) == Digit('9') <==> c in "9wxyzWXYZ"
    ensures KeyFor(c) == Skipped <==> c <= ' ' || c > '\U{7F}'
    ensures KeyFor(c).Digit? ==> '1' <= KeyFor(c).digit <= '9'
  {
  }

  // What a caller types for a name, up to its first character that has no key.
  function Image(text: string): string {
    if text == "" then ""
    else
      match KeyFor(text[0])
      case Digit(d) => [d] + Image(text[1..])
      case Skipped => Image(text[1..])
      case Unmapped => ""
  }

  predicate Matches(text: string, template: string) {
    text != "" && template <= Image(text)
  }

  lemma {:induction false} ImageStep(text: string, at: nat)
    requires at < |text|
    ensures Image(text[at..]) ==
      match KeyFor(text[at])
      case Digit(d) => [d] + Image(text[at + 1..])
      case Skipped => Image(text[at + 1..])
      case Unmapped => ""
  {
    assert text[at..][1..] == text[at + 1..];
  }

  // compare: 0 for a match, as strcmp has it.
  method Compare(text: string, template: string) returns (res: int)
    ensures res == 0 || res == -1
    ensures res == 0 <==> Matches(text, template)
  {
    if text == "" {
      return -1;
    }
    var i, t := 0, 0;
    while t < |template|
      invariant i <= |text| && t <= |template|
      invariant template <= Image(text) <==> template[t..] <= Image(text[i..])
      decreases |text| - i
    {
      if i == |text| {
        return -1;
      }
      ImageStep(text, i);
      ghost var wanted, image := template[t..], Image(text[i..]);
      var key := KeyFor(text[i]);
      i := i + 1;
      match key {
        case Unmapped =>
          return -1;
        case Skipped =>
        case Digit(d) =>
          assert wanted <= image <==> template[t] == d && wanted[1..] <= image[1..];
          t := t + 1;
          if template[t - 1] != d {
            return -1;
          }
          assert wanted[1..] == template[t..] && image[1..] == Image(text[i..]);
      }
    }
    return 0;
  }

  // --------------------------------------------------------------------------------- entries

  datatype Item = Item(exten: string, name: string, context: string, key: string)

  function FirstAt(s: string, c: char): (i: nat)
    ensures i <= |s| && c !in s[..i] && (i < |s| ==> s[i] == c)
  {
    if s == "" || s[0] == c then 0
    else
      var i := FirstAt(s[1..], c) + 1;
      assert s[..i] == [s[0]] + s[1..][..i - 1];
      i
  }

  // The part of a full name that is searched, and where it starts.
  function KeyStart(fullName: string, useFirstName: bool): (k: nat)
    ensures k <= |fullName|
  {
    var space := FirstAt(fullName, ' ');
    if useFirstName || space == |fullName| then 0 else space + 1
  }

  function SortKey(fullName: string, start: nat): (key: string)
    requires start <= |fullName|
    ensures |key| < KEY_SIZE
  {
    var key := Truncated(fullName[start..], KEY_SIZE);
    if start == 0 then key else Truncated(key + fullName[..start - 1], KEY_SIZE)
  }

  function ItemFor(context: string, fullName: string, ext: string, start: nat): Item
    requires start <= |fullName|
  {
    Item(Truncated(ext, MAX_EXTENSION + 1), Truncated(fullName, MAX_EXTENSION + 1),
         Truncated(context, MAX_CONTEXT + 1), SortKey(fullName, start))
  }

  lemma {:induction false} FirstAtIs(s: string, c: char, rest: string)
    requires c !in s
    ensures FirstAt(s + [c] + rest, c) == |s|
  {
    if s != "" {
      assert (s + [c] + rest)[1..] == s[1..] + [c] + rest;
      FirstAtIs(s[1..], c, rest);
    }
  }

  lemma {:induction false} FirstAtNone(s: string, c: char)
    requires c !in s
    ensures FirstAt(s, c) == |s|
  {
    if s != "" {
      FirstAtNone(s[1..], c);
    }
  }

  // A full name "first last": by last name it is searched from there and sorted as "lastfirst", by
  // first name it is searched and sorted as it is.
  lemma FullName(first: string, last: string)
    requires ' ' !in first && |first| + |last| + 1 < 50
    ensures var name := first + " " + last;
      && KeyStart(name, false) == |first| + 1 && name[KeyStart(name, false)..] == last
      && SortKey(name, KeyStart(name, false)) == last + first
      && KeyStart(name, true) == 0 && SortKey(name, 0) == name
  {
    var name := first + " " + last;
    FirstAtIs(first, ' ', last);
    assert name[|first| + 1..] == last && name[..|first|] == first && name[0..] == name;
  }

  lemma NameWithoutSpace(name: string, useFirstName: bool)
    requires ' ' !in name
    ensures KeyStart(name, useFirstName) == 0
  {
    FirstAtNone(name, ' ');
  }

  predicate NameMatches(fullName: string, ext: string, useFirstName: bool) {
    fullName != "" && Matches(fullName[KeyStart(fullName, useFirstName)..], ext)
  }

  // check_match
  method CheckMatch(context: string, fullName: string, itemExt: string, ext: string, useFirstName: bool)
      returns (item: Option<Item>)
    ensures item.Some? <==> NameMatches(fullName, ext, useFirstName)
    ensures item.Some? ==> item.value == ItemFor(context, fullName, itemExt, KeyStart(fullName, useFirstName))
  {
    if fullName == "" {
      return None;
    }
    var start := 0;
    if !useFirstName {
      var space := FirstAt(fullName, ' ');
      start := if space < |fullName| then space + 1 else 0;
    }
    var res := Compare(fullName[start..], ext);
    if res != 0 {
      return None;
    }
    var key := Truncated(fullName[start..], KEY_SIZE);
    if start != 0 {
      var nameLen := start - 1;
      if nameLen > KEY_SIZE - |key| - 1 {
        nameLen := KEY_SIZE - |key| - 1;
      }
      ghost var short := key;
      key := key + fullName[..nameLen];
      assert fullName[..nameLen] == fullName[..start - 1][..nameLen];
      assert key == Truncated(short + fullName[..start - 1], KEY_SIZE);
    }
    item := Some(Item(Truncated(itemExt, MAX_EXTENSION + 1), Truncated(fullName, MAX_EXTENSION + 1),
                      Truncated(context, MAX_CONTEXT + 1), key));
  }

  // A mailbox of voicemail.conf, or a user of users.conf.
  datatype Entry =
    | Mailbox(name: string, value: string)
    | User(name: string, hasDirectory: bool, fullName: Option<string>)

  datatype Flags = Flags(byLastName: bool, byFirstName: bool)

  const HIDDEN := "hidefromdir=yes"

  predicate Hidden(value: string) {
    exists i :: 0 <= i <= |value| - |HIDDEN| && SameName(value[i..][..|HIDDEN|], HIDDEN)
  }

  // The second of the comma separated fields; the value is cut to the size of a local buffer.
  function NameField(value: string): Option<string> {
    var buf := Truncated(value, MAX_EXTENSION + 1);
    var comma := FirstAt(buf, ',');
    if comma == |buf| then None
    else
      var rest := buf[comma + 1..];
      Some(rest[..FirstAt(rest, ',')])
  }

  // The name in "password,name" or "password,name,...".
  lemma NameFieldIs(password: string, name: string)
    requires ',' !in password && ',' !in name && |password| + |name| + 1 <= 80
    ensures NameField(password + "," + name) == Some(name)
  {
    FirstAtIs(password, ',', name);
    FirstAtNone(name, ',');
    var value := password + "," + name;
    assert value[|password| + 1..] == name && name[..|name|] == name;
  }

  lemma NameFieldOf(password: string, name: string, rest: string)
    requires ',' !in password && ',' !in name && |password| + |name| + |rest| + 2 <= 80
    ensures NameField(password + "," + (name + "," + rest)) == Some(name)
  {
    var more := name + "," + rest;
    FirstAtIs(password, ',', more);
    FirstAtIs(name, ',', rest);
    var value := password + "," + more;
    assert value[|password| + 1..] == more && more[..|name|] == name;
  }

  // Which entries are not searched at all: mailboxes without a name or hidden from the directory,
  // the general section, and users without a name or not wanted in the directory.
  lemma NotSearched(e: Entry)
    ensures SearchedName(e) == None <==>
      match e
      case Mailbox(_, value) => Hidden(value) || ',' !in Truncated(value, 81)
      case User(name, hasDirectory, fullName) => SameName(name, "general") || !hasDirectory || fullName == None
  {
    if e.Mailbox? {
      var buf := Truncated(e.value, 81);
      if ',' !in buf {
        FirstAtNone(buf, ',');
      } else {
        assert buf[..|buf|] == buf;
      }
    }
  }

  lemma HiddenBy(before: string, after: string)
    ensures Hidden(before + "hidefromdir=yes" + after)
  {
    var value := before + "hidefromdir=yes" + after;
    assert value[|before|..][..|HIDDEN|] == HIDDEN;
  }

  function SearchedName(e: Entry): Option<string> {
    match e
    case Mailbox(_, value) => if Hidden(value) then None else NameField(value)
    case User(name, hasDirectory, fullName) =>
      if SameName(name, "general") || !hasDirectory then None else fullName
  }

  // An entry belongs in the list: one of the names that count starts with what was typed.
  predicate Listed(e: Entry, ext: string, flags: Flags) {
    && SearchedName(e).Some?
    && ((flags.byLastName && NameMatches(SearchedName(e).value, ext, false))
        || (flags.byFirstName && NameMatches(SearchedName(e).value, ext, true)))
  }

  // Its item is keyed by last name, first name if the last name matches.
  function ListedItem(context: string, e: Entry, ext: string, flags: Flags): Item
    requires Listed(e, ext, flags)
  {
    var name := SearchedName(e).value;
    var useFirstName := !(flags.byLastName && NameMatches(name, ext, false));
    ItemFor(context, name, e.name, KeyStart(name, useFirstName))
  }

  function Found(context: string, entries: seq<Entry>, ext: string, flags: Flags): seq<Item> {
    if entries == [] then []
    else
      var n := |entries| - 1;
      Found(context, entries[..n], ext, flags) +
        if Listed(entries[n], ext, flags) then [ListedItem(context, entries[n], ext, flags)] else []
  }

  // One turn of either loop of search_directory_sub.
  method SearchEntry(context: string, e: Entry, ext: string, flags: Flags) returns (item: Option<Item>)
    ensures item == if Listed(e, ext, flags) then Some(ListedItem(context, e, ext, flags)) else None
  {
    var name := SearchedName(e);
    if name == None || name.value == "" {
      return None;
    }
    item := None;
    if flags.byLastName {
      item := CheckMatch(context, name.value, e.name, ext, false);
    }
    if item == None && flags.byFirstName {
      item := CheckMatch(context, name.value, e.name, ext, true);
    }
  }

  // search_directory_sub
  method SearchDirectorySub(context: string, vmcfg: seq<Entry>, ucfg: seq<Entry>, ext: string, flags: Flags,
                            alist: seq<Item>) returns (list: seq<Item>)
    ensures list == alist + Found(context, vmcfg + ucfg, ext, flags)
  {
    list := alist;
    var entries := vmcfg + ucfg;
    for i := 0 to |entries|
      invariant list == alist + Found(context, entries[..i], ext, flags)
    {
      var item := SearchEntry(context, entries[i], ext, flags);
      if item.Some? {
        list := list + [item.value];
      }
      assert entries[..i + 1][..i] == entries[..i];
    }
    assert entries[..|entries|] == entries;
  }

  // ------------------------------------------------------------------ every entry once, in order

  function ListedOnly(entries: seq<Entry>, ext: string, flags: Flags): seq<Entry> {
    if entries == [] then []
    else
      var n := |entries| - 1;
      ListedOnly(entries[..n], ext, flags) + if Listed(entries[n], ext, flags) then [entries[n]] else []
  }

  // Item by item the list follows the matching entries, so an entry whose names both match is
  // there once, under its last name.
  lemma {:induction false} FoundOnce(context: string, entries: seq<Entry>, ext: string, flags: Flags)
    ensures var items, listed := Found(context, entries, ext, flags), ListedOnly(entries, ext, flags);
      && |items| == |listed|
      && forall i :: 0 <= i < |items| ==>
        Listed(listed[i], ext, flags) && items[i] == ListedItem(context, listed[i], ext, flags)
  {
    if entries != [] {
      FoundOnce(context, entries[..|entries| - 1], ext, flags);
    }
  }

  // What the list has of an entry: its number, its name, the context and the text it is sorted by.
  predicate Shows(item: Item, context: string, e: Entry, name: string, key: string) {
    && item.exten <= e.name && |item.exten| == (if |e.name| <= 80 then |e.name| else 80)
    && item.name <= name && |item.name| == (if |name| <= 80 then |name| else 80)
    && item.context <= context && |item.context| == (if |context| <= 80 then |context| else 80)
    && item.key == key
  }

  // An entry whose name is "first last" is listed exactly when last names count and what was typed
  // starts the last name, or first names count and it starts the full name; it is sorted by last
  // name in the first case and by full name otherwise.
  lemma ListedFullName(context: string, e: Entry, first: string, last: string, ext: string, flags: Flags)
    requires ' ' !in first && |first| + |last| + 1 < 50 && SearchedName(e) == Some(first + " " + last)
    ensures var name := first + " " + last;
      var byLast, byFirst := flags.byLastName && Matches(last, ext), flags.byFirstName && Matches(name, ext);
      && (Listed(e, ext, flags) <==> byLast || byFirst)
      && (byLast ==> Shows(ListedItem(context, e, ext, flags), context, e, name, last + first))
      && (byFirst && !byLast ==> Shows(ListedItem(context, e, ext, flags), context, e, name, name))
  {
    var name := first + " " + last;
    FullName(first, last);
    assert name[0..] == name;
  }

  // An empty text matches nothing, and nothing typed matches every other text.
  lemma NothingTyped(text: string, template: string)
    ensures !Matches("", template)
    ensures text != "" ==> Matches(text, "")
  {
  }

  // What a caller types reaches a name by its letters, whatever the case of the letters.
  lemma {:induction false} ImageFolds(text: string)
    ensures Image(Lower(text)) == Image(text)
  {
    if text != "" {
      assert Lower(text)[1..] == Lower(text[1..]);
      ImageFolds(text[1..]);
    }
  }

  // Typing more can only shorten the list.
  lemma MatchesPrefix(text: string, template: string, typed: string)
    requires Matches(text, template) && typed <= template
    ensures Matches(text, typed)
  {
    assert typed == template[..|typed|] == Image(text)[..|typed|];
  }
}

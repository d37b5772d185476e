/** The type URLs of encoded values: how they are built, and how the type name is found again. */
module TypeUrls {
  /** `s.split(c)`. */
  function Split(s: string, c: char): (parts: seq<string>)
    ensures parts != []
  {
    if s == "" then [""]
    else
      AddFirst(s[0], Split(s[1..], c), c)
  }

  /** The parts of a string with one more character in front. */
  function AddFirst(first: char, parts: seq<string>, c: char): (r: seq<string>)
    requires parts != []
    ensures r != []
  {
    if first == c then [""] + parts else [[first] + parts[0]] + parts[1..]
  }

  function Last<T>(s: seq<T>): T
    requires s != []
  {
    s[|s| - 1]
  }

  /** `s.endswith(suffix)`. */
  predicate EndsWith(s: string, suffix: string) {
    |suffix| <= |s| && s[|s| - |suffix|..] == suffix
  }

  function Url(typeName: string): string {
    "type.googleapis.com" + "/" + ("snakepit" + "." + typeName)
  }

  function BinaryUrl(typeName: string): string {
    Url(typeName) + ("." + "binary")
  }

  /** The type name that `decode_any` takes from a URL: what follows the last dot of what follows
      the last slash. */
  function TypeOf(url: string): string {
    var typePart := if '/' in url then Last(Split(url, '/')) else url;
    Last(Split(typePart, '.'))
  }

  /** The type name that `_decode_with_binary` takes from a URL: the last part but one. */
  function BinaryTypeOf(url: string): string
    requires EndsWith(url, ".binary")
  {
    LongEnough(url);
    var parts := Split(url, '.');
    parts[|parts| - 2]
  }

  /** The parts have no separator, and no characters that are not in the string. */
  lemma {:induction false} PartsOf(s: string, c: char)
    ensures forall p :: p in Split(s, c) ==> c !in p && forall x :: x in p ==> x in s
  {
    if s != "" {
      PartsOf(s[1..], c);
    }
  }

  function Join(parts: seq<string>, c: char): string
    requires parts != []
  {
    if |parts| == 1 then parts[0] else parts[0] + [c] + Join(parts[1..], c)
  }

  /** Put together again, the parts are the string. */
  lemma {:induction false} SplitJoins(s: string, c: char)
    ensures Join(Split(s, c), c) == s
  {
    if s != "" {
      SplitJoins(s[1..], c);
      var rest, all := Split(s[1..], c), Split(s, c);
      assert s == [s[0]] + s[1..] && all[1..] == if s[0] == c then rest else rest[1..];
    }
  }

  lemma {:induction false} SplitPlain(s: string, c: char)
    requires c !in s
    ensures Split(s, c) == [s]
  {
    if s != "" {
      SplitPlain(s[1..], c);
      assert [s[0]] + s[1..] == s;
    }
  }

  lemma {:induction false} SplitAt(a: string, c: char, b: string)
    ensures Split(a + [c] + b, c) == Split(a, c) + Split(b, c)
  {
    var s := a + [c] + b;
    if a == "" {
      assert s[1..] == b;
    } else {
      assert s[1..] == a[1..] + [c] + b && s[0] == a[0];
      SplitAt(a[1..], c, b);
      AddFirstAppend(a[0], Split(a[1..], c), Split(b, c), c);
    }
  }

  lemma AddFirstAppend(first: char, parts: seq<string>, more: seq<string>, c: char)
    requires parts != []
    ensures AddFirst(first, parts + more, c) == AddFirst(first, parts, c) + more
  {
    assert (parts + more)[1..] == parts[1..] + more;
  }

  lemma LongEnough(url: string)
    requires EndsWith(url, ".binary")
    ensures |Split(url, '.')| >= 2
  {
    var stem := url[..|url| - 7];
    assert url == stem + ['.'] + "binary";
    SplitAt(stem, '.', "binary");
  }

  lemma TypePart(typeName: string)
    ensures '/' in Url(typeName)
    ensures Last(Split(Url(typeName), '/')) == Last(Split("snakepit" + "." + typeName, '/'))
  {
    hide Split, Last;
    var host, rest := "type.googleapis.com", "snakepit" + "." + typeName;
    assert Url(typeName) == host + ['/'] + rest;
    assert Url(typeName)[|host|] == '/';
    SplitAt(host, '/', rest);
    LastOfAppend(Split(host, '/'), Split(rest, '/'));
  }

  lemma LastOfAppend<T>(s: seq<T>, t: seq<T>)
    requires t != []
    ensures Last(s + t) == Last(t)
  {
  }

  /** The name is found again if and only if it has neither a dot nor a slash. */
  lemma TypeNameRecovered(typeName: string)
    ensures TypeOf(Url(typeName)) == typeName <==> '.' !in typeName && '/' !in typeName
  {
    hide Split, Url;
    var rest := "snakepit" + "." + typeName;
    TypePart(typeName);
    var typePart := Last(Split(rest, '/'));
    PartsOf(rest, '/');
    PartsOf(typePart, '.');
    assert typePart in Split(rest, '/');
    assert TypeOf(Url(typeName)) in Split(typePart, '.');
    if '.' !in typeName && '/' !in typeName {
      SplitPlain(rest, '/');
      assert rest == "snakepit" + ['.'] + typeName;
      SplitAt("snakepit", '.', typeName);
      SplitPlain(typeName, '.');
    }
  }

  /** On the binary path the name is found again if and only if it has no dot. */
  lemma BinaryTypeNameRecovered(typeName: string)
    ensures EndsWith(BinaryUrl(typeName), ".binary")
    ensures BinaryTypeOf(BinaryUrl(typeName)) == typeName <==> '.' !in typeName
  {
    var url := BinaryUrl(typeName);
    var stem := "type.googleapis.com" + "/" + "snakepit";
    assert url[|url| - 7..] == ".binary";
    assert url == (stem + ['.'] + typeName) + ['.'] + "binary";
    SplitAt(stem + ['.'] + typeName, '.', "binary");
    SplitPlain("binary", '.');
    SplitAt(stem, '.', typeName);
    var parts := Split(url, '.');
    assert parts == Split(stem, '.') + Split(typeName, '.') + ["binary"];
    assert parts[|parts| - 2] == Last(Split(typeName, '.'));
    PartsOf(typeName, '.');
    assert Last(Split(typeName, '.')) in Split(typeName, '.');
    if '.' !in typeName {
      SplitPlain(typeName, '.');
    }
  }

  /** The URLs as they are written. */
  lemma UrlText(typeName: string)
    ensures Url(typeName) == "type.googleapis.com/snakepit." + typeName
    ensures BinaryUrl(typeName) == "type.googleapis.com/snakepit." + typeName + ".binary"
  {
    assert "type.googleapis.com" + "/" + ("snakepit" + ".") == "type.googleapis.com/snakepit.";
    assert Url(typeName) == "type.googleapis.com" + "/" + ("snakepit" + ".") + typeName;
  }

  lemma {:induction false} LastIndex(s: string, c: char) returns (k: nat)
    requires c in s
    ensures k < |s| && s[k] == c && c !in s[k + 1..]
  {
    k := |s| - 1;
    if s[k] != c {
      assert s == s[..k] + [s[k]];
      var j := LastIndex(s[..k], c);
      assert s[j + 1..] == s[..k][j + 1..] + [s[k]];
      k := j;
    }
  }

  /** The text before a name: nothing, or something that ends in one of the separators. */
  predicate EndsInSeparator(front: string, separators: set<char>) {
    front == "" || front[|front| - 1] in separators
  }

  lemma LastPart(front: string, c: char, name: string)
    requires c !in name && EndsInSeparator(front, {c})
    ensures Last(Split(front + name, c)) == name
  {
    if front == "" {
      assert front + name == name;
    } else {
      assert front + name == front[..|front| - 1] + [c] + name;
      SplitAt(front[..|front| - 1], c, name);
    }
    SplitPlain(name, c);
  }

  /** In a URL of any form, the name is what follows the last separator. */
  lemma TypeIsLastPart(front: string, name: string)
    requires '.' !in name && '/' !in name && EndsInSeparator(front, {'.', '/'})
    ensures TypeOf(front + name) == name
  {
    var url := front + name;
    if '/' in url {
      assert '/' in front;
      var k := LastIndex(front, '/');
      var head, tail := front[..k + 1], front[k + 1..];
      assert url == head + (tail + name);
      LastPart(head, '/', tail + name);
      LastPart(tail, '.', name);
    } else {
      LastPart(front, '.', name);
    }
  }

  /** In the URL of a binary message of any form, it is what follows the last dot before the end. */
  lemma BinaryTypeIsLastPart(front: string, name: string)
    requires '.' !in name && EndsInSeparator(front, {'.'})
    ensures EndsWith(front + name + ".binary", ".binary")
    ensures BinaryTypeOf(front + name + ".binary") == name
  {
    var stem, url := front + name, front + name + ".binary";
    assert url[|url| - 7..] == ".binary";
    assert url == stem + ['.'] + "binary";
    SplitAt(stem, '.', "binary");
    SplitPlain("binary", '.');
    LastPart(front, '.', name);
    var parts := Split(stem, '.');
    assert (parts + ["binary"])[|parts + ["binary"]| - 2] == Last(parts);
  }
}

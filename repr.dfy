/** Python's `repr` of a list of strings, which is how an f-string renders a
    list: the closure of scons_remote/ActionRemote.py writes its `cmd_args` list
    into the command line this way. */
module Repr {

  /** The quote `repr` puts around a string: double quotes when the text holds a
      single quote and no double quote, single quotes otherwise. */
  function QuoteFor(s: string): (q: char)
    ensures q == '"' <==> '\'' in s && '"' !in s
    ensures q == '"' || q == '\''
  {
    if '\'' in s && '"' !in s then '"' else '\''
  }

  function HexDigit(n: nat): char
    requires n < 16
  {
    "0123456789abcdef"[n]
  }

  /** How `repr` writes one character inside quotes `q`: the backslash and the
      quote itself escaped, tab, newline and carriage return by name, the
      other ASCII control characters as `\xhh`, everything else as itself. */
  function EscapeChar(c: char, q: char): (r: string)
    ensures |r| >= 1 && (r != [c] ==> |r| >= 2)
    ensures r == [c] <==> c != '\\' && c != q && 32 <= c as int && c as int != 127
  {
    if c == '\\' then "\\\\"
    else if c == q then ['\\', c]
    else if c == '\n' then "\\n"
    else if c == '\r' then "\\r"
    else if c == '\t' then "\\t"
    else if c as int < 32 || c as int == 127 then ['\\', 'x', HexDigit(c as int / 16), HexDigit(c as int % 16)]
    else [c]
  }

  function Escape(s: string, q: char): string
  {
    if s == [] then [] else EscapeChar(s[0], q) + Escape(s[1..], q)
  }

  /** `repr` of a string. */
  function StrRepr(s: string): (r: string)
    ensures |r| >= 2 && r[0] == QuoteFor(s) && r[|r| - 1] == QuoteFor(s)
  {
    [QuoteFor(s)] + Escape(s, QuoteFor(s)) + [QuoteFor(s)]
  }

  /** The items joined by ", ", as `list.__repr__` separates them. */
  function CommaJoin(items: seq<string>): string
  {
    if |items| == 0 then ""
    else if |items| == 1 then items[0]
    else items[0] + ", " + CommaJoin(items[1..])
  }

  function Reprs(xs: seq<string>): (rs: seq<string>)
    ensures |rs| == |xs| && forall i :: 0 <= i < |xs| ==> rs[i] == StrRepr(xs[i])
  {
    if xs == [] then [] else [StrRepr(xs[0])] + Reprs(xs[1..])
  }

  /** `repr` of a list of strings: brackets around the items' reprs. */
  function ListRepr(xs: seq<string>): (r: string)
    ensures |r| >= 2 && r[0] == '[' && r[|r| - 1] == ']'
  {
    "[" + CommaJoin(Reprs(xs)) + "]"
  }

  /** A character `repr` writes as itself inside single quotes. */
  predicate Plain(c: char)
  {
    c != '\\' && c != '\'' && 32 <= c as int && c as int != 127
  }

  predicate PlainText(s: string)
  {
    forall i :: 0 <= i < |s| ==> Plain(s[i])
  }

  lemma EscapePlain(s: string)
    requires PlainText(s)
    ensures Escape(s, '\'') == s
  {
    EscapeIdentity(s, '\'');
  }

  /** A string of plain characters is written between single quotes, unchanged. */
  lemma StrReprPlain(s: string)
    requires PlainText(s)
    ensures StrRepr(s) == "'" + s + "'"
  {
    forall i | 0 <= i < |s| ensures s[i] != '\'' {
      assert Plain(s[i]);
    }
    EscapePlain(s);
  }

  /** Escaping never shortens the text, and keeps its length only when every
      character is written as itself. */
  lemma {:induction false} EscapeGrows(s: string, q: char)
    ensures |Escape(s, q)| >= |s|
    ensures |Escape(s, q)| == |s| ==> forall i :: 0 <= i < |s| ==> EscapeChar(s[i], q) == [s[i]]
  {
    if s != [] {
      EscapeGrows(s[1..], q);
      forall i | 0 <= i < |s| && |Escape(s, q)| == |s| ensures EscapeChar(s[i], q) == [s[i]] {
        if i > 0 {
          assert s[i] == s[1..][i - 1];
        }
      }
    }
  }

  lemma {:induction false} EscapeIdentity(s: string, q: char)
    requires forall i :: 0 <= i < |s| ==> EscapeChar(s[i], q) == [s[i]]
    ensures Escape(s, q) == s
  {
    if s != [] {
      forall i | 0 <= i < |s[1..]| ensures EscapeChar(s[1..][i], q) == [s[1..][i]] {
        assert s[1..][i] == s[i + 1];
      }
      EscapeIdentity(s[1..], q);
      assert EscapeChar(s[0], q) == [s[0]];
    }
  }

  /** The text between the quotes is the string itself exactly when no
      character of it needs an escape. */
  lemma EscapeIdentityIff(s: string, q: char)
    ensures Escape(s, q) == s <==> forall i :: 0 <= i < |s| ==> EscapeChar(s[i], q) == [s[i]]
  {
    EscapeGrows(s, q);
    if forall i :: 0 <= i < |s| ==> EscapeChar(s[i], q) == [s[i]] {
      EscapeIdentity(s, q);
    }
  }

  /** A list of plain strings renders as Python shows it: `['-u', 'x']`. */
  lemma {:induction false} ListReprPlain(xs: seq<string>)
    requires forall i :: 0 <= i < |xs| ==> PlainText(xs[i])
    ensures forall i :: 0 <= i < |xs| ==> Reprs(xs)[i] == "'" + xs[i] + "'"
  {
    forall i | 0 <= i < |xs| ensures Reprs(xs)[i] == "'" + xs[i] + "'" {
      StrReprPlain(xs[i]);
    }
  }

  /** A two-item list renders as Python shows it. */
  lemma ListReprExample()
    ensures ListRepr(["-u", "x.txt"]) == "['-u', 'x.txt']"
  {
    var xs := ["-u", "x.txt"];
    StrReprPlain(xs[0]);
    StrReprPlain(xs[1]);
    var rs := Reprs(xs);
    assert rs == [StrRepr(xs[0])] + Reprs(xs[1..]);
    assert Reprs(xs[1..]) == [StrRepr(xs[1])] + Reprs([]);
    assert CommaJoin(rs) == rs[0] + ", " + rs[1];
  }

  /** A string holding a single quote and no double quote is put in double quotes. */
  lemma StrReprQuoteExample()
    ensures StrRepr("it's") == "\"it's\""
  {
    var s := "it's";
    assert QuoteFor(s) == '"' by {
      assert s[2] == '\'';
    }
    forall i | 0 <= i < |s| ensures EscapeChar(s[i], '"') == [s[i]] {
    }
    EscapeIdentity(s, '"');
  }
}

/** Object names: the names derived from a user hash, and the general name sanitiser. */
module Names {
  import opened Basics

  /** The first 12 hexadecimal digits of a hash of the user id; the hash function itself is arbitrary. */
  type Hash = string

  predicate HexDigit(c: char) {
    '0' <= c <= '9' || 'a' <= c <= 'f'
  }

  predicate IsHash(h: Hash) {
    |h| == 12 && forall i :: 0 <= i < |h| ==> HexDigit(h[i])
  }

  /** The names the proxy uses. Pods and services share the first form. */
  datatype Name =
    | TerminalName(hash: Hash)
    | SecretName(hash: Hash)
    | UserPvcName(hash: Hash)
    | SharedPvcName
  {
    function Render(): string {
      match this
      case TerminalName(h) => "terminal-" + h
      case SecretName(h) => "terminal-secret-" + h
      case UserPvcName(h) => "pvc-" + h
      case SharedPvcName => "terminal-shared-storage"
    }

    predicate WellFormed() {
      SharedPvcName? || IsHash(hash)
    }
  }

  /** Distinct names are distinct strings, so the model may key the cluster by `Name`. */
  lemma RenderIsInjective(m: Name, n: Name)
    requires m.WellFormed() && n.WellFormed() && m.Render() == n.Render()
    ensures m == n
  {
    assert |m.Render()| == |n.Render()|;
    if !m.SharedPvcName? && !n.SharedPvcName? {
      assert m.Render()[|m.Render()| - 12..] == m.hash;
      assert n.Render()[|n.Render()| - 12..] == n.hash;
    }
  }

  /** Reads a name back from its string: the inverse of `Render`. */
  function Read(s: string): Option<Name> {
    if s == "terminal-shared-storage" then Some(SharedPvcName)
    else if |s| == 28 && s[..16] == "terminal-secret-" then Some(SecretName(s[16..]))
    else if |s| == 21 && s[..9] == "terminal-" then Some(TerminalName(s[9..]))
    else if |s| == 16 && s[..4] == "pvc-" then Some(UserPvcName(s[4..]))
    else None
  }

  lemma NamesAreReadable(n: Name)
    requires n.WellFormed()
    ensures Read(n.Render()) == Some(n)
  {
  }

  lemma PrefixedHashIsLabel(prefix: string, h: Hash)
    requires IsHash(h) && 1 <= |prefix| <= 50 && prefix[0] != '-' && SingleHyphens(prefix)
    requires forall i :: 0 <= i < |prefix| ==> LabelChar(prefix[i])
    ensures IsLabel(prefix + h)
  {
    var s := prefix + h;
    forall i | 0 <= i < |s| - 1 ensures !(s[i] == '-' && s[i + 1] == '-') {
      if i + 1 < |prefix| {
        assert !(prefix[i] == '-' && prefix[i + 1] == '-');
      }
    }
  }

  /** Every name derived from a hash is a valid label as it stands. */
  lemma RenderIsLabel(n: Name)
    requires n.WellFormed()
    ensures IsLabel(n.Render())
  {
    match n
    case TerminalName(h) => PrefixedHashIsLabel("terminal-", h);
    case SecretName(h) => PrefixedHashIsLabel("terminal-secret-", h);
    case UserPvcName(h) => PrefixedHashIsLabel("pvc-", h);
    case SharedPvcName =>
  }

  // ---------- sanitize_k8s_name ----------

  predicate LabelChar(c: char) {
    'a' <= c <= 'z' || '0' <= c <= '9' || c == '-'
  }

  /** A label in the sense of section 2.1 of RFC 1123, at most 63 characters long (section 2.3.4
      of RFC 1035), and without a doubled hyphen. */
  predicate IsLabel(s: string) {
    && 1 <= |s| <= 63
    && (forall i :: 0 <= i < |s| ==> LabelChar(s[i]))
    && s[0] != '-' && s[|s| - 1] != '-'
    && SingleHyphens(s)
  }

  predicate SingleHyphens(s: string) {
    forall i :: 0 <= i < |s| - 1 ==> !(s[i] == '-' && s[i + 1] == '-')
  }

  /** Replace every character outside [a-z0-9-] by a hyphen. */
  function Substitute(s: string): (r: string)
    ensures |r| == |s|
    ensures forall i :: 0 <= i < |r| ==> r[i] == if LabelChar(s[i]) then s[i] else '-'
  {
    seq(|s|, i requires 0 <= i < |s| => if LabelChar(s[i]) then s[i] else '-')
  }

  /** Replace every run of hyphens by one hyphen. */
  function Collapse(s: string): string {
    if s == "" then ""
    else
      var r := Collapse(s[..|s| - 1]);
      if s[|s| - 1] == '-' && r != "" && r[|r| - 1] == '-' then r else r + [s[|s| - 1]]
  }

  function StripLeft(s: string): string {
    if s != "" && s[0] == '-' then StripLeft(s[1..]) else s
  }

  function StripRight(s: string): string {
    if s != "" && s[|s| - 1] == '-' then StripRight(s[..|s| - 1]) else s
  }

  function Truncate(s: string): string {
    if |s| > 63 then s[..63] else s
  }

  /** `lower` stands for Unicode lower-casing, which may even change the length of the text. */
  function Sanitize(lower: string -> string, name: string): string {
    var r := StripRight(Truncate(StripRight(StripLeft(Collapse(Substitute(lower(name)))))));
    if r == "" then "unknown" else r
  }

  lemma {:induction false} CollapseIsSingle(s: string)
    requires forall i :: 0 <= i < |s| ==> LabelChar(s[i])
    ensures SingleHyphens(Collapse(s))
    ensures forall i :: 0 <= i < |Collapse(s)| ==> LabelChar(Collapse(s)[i])
  {
    if s == "" {
    } else {
      CollapseIsSingle(s[..|s| - 1]);
    }
  }

  lemma {:induction false} StripLeftIsSuffix(s: string) returns (k: nat)
    ensures k <= |s| && StripLeft(s) == s[k..]
    ensures StripLeft(s) != "" ==> StripLeft(s)[0] != '-'
  {
    k := 0;
    if s != "" && s[0] == '-' {
      var j := StripLeftIsSuffix(s[1..]);
      k := j + 1;
    }
  }

  lemma {:induction false} StripRightIsPrefix(s: string) returns (k: nat)
    ensures k <= |s| && StripRight(s) == s[..k]
    ensures StripRight(s) != "" ==> StripRight(s)[|StripRight(s)| - 1] != '-'
  {
    k := |s|;
    if s != "" && s[|s| - 1] == '-' {
      k := StripRightIsPrefix(s[..|s| - 1]);
      assert s[..|s| - 1][..k] == s[..k];
    }
  }

  /** Whatever the input, the result is a valid label: truncation may expose a trailing hyphen,
      which the second strip removes. */
  lemma SanitizeIsLabel(lower: string -> string, name: string)
    ensures IsLabel(Sanitize(lower, name))
  {
    var a := Substitute(lower(name));
    var b := Collapse(a);
    CollapseIsSingle(a);
    var i := StripLeftIsSuffix(b);
    var c := StripLeft(b);
    var j := StripRightIsPrefix(c);
    var d := Truncate(StripRight(c));
    var k := StripRightIsPrefix(d);
    var e := StripRight(d);
    assert forall m :: 0 <= m < |e| ==> e[m] == b[i + m];
    if e == "" {
      assert IsLabel("unknown");
    } else {
      assert SingleHyphens(e);
    }
  }

  lemma SingleHyphensPrefix(s: string)
    requires SingleHyphens(s) && s != ""
    ensures SingleHyphens(s[..|s| - 1])
    ensures |s| > 1 ==> !(s[|s| - 2] == '-' && s[|s| - 1] == '-')
  {
    var before := s[..|s| - 1];
    forall i | 0 <= i < |before| - 1 ensures !(before[i] == '-' && before[i + 1] == '-') {
      assert !(s[i] == '-' && s[i + 1] == '-');
    }
    assert |s| > 1 ==> s[|s| - 2 + 1] == s[|s| - 1];
  }

  lemma {:induction false} CollapseFixesSingle(s: string)
    requires SingleHyphens(s)
    ensures Collapse(s) == s
  {
    hide SingleHyphens;
    if s == "" {
    } else {
      SingleHyphensPrefix(s);
      CollapseFixesSingle(s[..|s| - 1]);
      assert s == s[..|s| - 1] + [s[|s| - 1]];
    }
  }

  /** The sanitiser leaves a text unchanged exactly when it already is a valid label; hence it is
      idempotent. Lower-casing must not change texts over [a-z0-9-]. */
  lemma SanitizeFixesExactlyLabels(lower: string -> string, name: string)
    requires IsLabel(name) ==> lower(name) == name
    ensures Sanitize(lower, name) == name <==> IsLabel(name)
  {
    SanitizeIsLabel(lower, name);
    if IsLabel(name) {
      assert Substitute(name) == name;
      CollapseFixesSingle(name);
    }
  }

  lemma SanitizeIsIdempotent(lower: string -> string, name: string)
    requires lower(Sanitize(lower, name)) == Sanitize(lower, name)
    ensures Sanitize(lower, Sanitize(lower, name)) == Sanitize(lower, name)
  {
    SanitizeIsLabel(lower, name);
    SanitizeFixesExactlyLabels(lower, Sanitize(lower, name));
  }

  // ---------- What the sanitiser keeps ----------

  predicate WordChar(c: char) {
    'a' <= c <= 'z' || '0' <= c <= '9'
  }

  /** The words of a text, its maximal stretches of [a-z0-9], joined by single hyphens: a word character
      is kept, preceded by a hyphen if it starts a word that is not the first; nothing else is. */
  function JoinWords(s: string): string {
    if s == "" then ""
    else
      var before, c := s[..|s| - 1], s[|s| - 1];
      var r := JoinWords(before);
      if !WordChar(c) then r
      else if r != "" && !WordChar(before[|before| - 1]) then r + "-" + [c]
      else r + [c]
  }

  lemma {:induction false} JoinWordsShape(s: string)
    ensures JoinWords(s) == "" <==> forall i :: 0 <= i < |s| ==> !WordChar(s[i])
    ensures JoinWords(s) != "" ==> WordChar(JoinWords(s)[0]) && WordChar(JoinWords(s)[|JoinWords(s)| - 1])
  {
    if s == "" {
    } else {
      JoinWordsShape(s[..|s| - 1]);
      assert forall i :: 0 <= i < |s| - 1 ==> s[..|s| - 1][i] == s[i];
    }
  }

  /** Collapsing one character more. */
  lemma CollapseStep(s: string)
    requires s != ""
    ensures var r, c := Collapse(Substitute(s[..|s| - 1])), s[|s| - 1];
            Collapse(Substitute(s)) == if WordChar(c) then r + [c]
                                       else if r != "" && r[|r| - 1] == '-' then r
                                       else r + "-"
  {
    assert Substitute(s)[..|s| - 1] == Substitute(s[..|s| - 1]);
  }

  /** Collapsing gives the joined words, with a hyphen ahead and behind where the text has one. */
  lemma {:induction false} CollapseJoinsWords(s: string)
    ensures var lead := if s != "" && !WordChar(s[0]) then "-" else "";
            var trail := if JoinWords(s) != "" && !WordChar(s[|s| - 1]) then "-" else "";
            Collapse(Substitute(s)) == lead + JoinWords(s) + trail
  {
    if s == "" {
      assert Substitute(s) == "";
    } else {
      hide Collapse, Substitute;
      var before, c := s[..|s| - 1], s[|s| - 1];
      CollapseJoinsWords(before);
      CollapseStep(s);
      if before == "" {
        assert Substitute("") == "" && Collapse("") == "" by { NothingCollapses(); }
      } else {
        JoinWordsShape(before);
        var lead, words := if WordChar(s[0]) then "" else "-", JoinWords(before);
        if WordChar(c) {
          NewWordChar(lead, words, c);
        } else {
          NewSeparator(lead, words, words != "" && !WordChar(before[|before| - 1]));
        }
      }
    }
  }

  lemma NothingCollapses()
    ensures Substitute("") == "" && Collapse("") == ""
  {
  }

  lemma NewWordChar(lead: string, words: string, c: char)
    ensures lead + words + "-" + [c] == lead + (words + "-" + [c]) + ""
    ensures lead + words + "" + [c] == lead + (words + [c]) + ""
  {
  }

  lemma NewSeparator(lead: string, words: string, trailing: bool)
    requires words == "" ==> lead == "-" && !trailing
    requires words != "" ==> words[|words| - 1] != '-'
    ensures var r := lead + words + if trailing then "-" else "";
            r != ""
            && (if r[|r| - 1] == '-' then r else r + "-") == lead + words + if words != "" then "-" else ""
  {
    var r := lead + words + if trailing then "-" else "";
    if words == "" {
      assert r == "-";
    } else if trailing {
      assert r[|r| - 1] == '-';
    } else {
      assert r == lead + words && r[|r| - 1] == words[|words| - 1];
    }
  }

  lemma StripRightOne(s: string, trail: string)
    requires trail == "" || trail == "-"
    requires s != "" ==> s[|s| - 1] != '-'
    ensures StripRight(s + trail) == s
  {
    assert (s + "-")[..|s|] == s && s + "" == s;
  }

  lemma StripLeftOne(lead: string, s: string)
    requires lead == "" || lead == "-"
    requires s != "" ==> s[0] != '-'
    ensures StripLeft(lead + s) == s
  {
    assert ("-" + s)[1..] == s && "" + s == s;
  }

  lemma LoneHyphens(lead: string)
    requires lead == "" || lead == "-"
    ensures StripRight(StripLeft(lead)) == ""
  {
  }

  /** The sanitised name is the joined words of the lower-cased name, cut to 63 characters and, if the cut
      falls behind a word, without the hyphen it leaves; and "unknown" if there is no word at all. */
  lemma SanitizeJoinsWords(lower: string -> string, name: string)
    ensures var words := JoinWords(lower(name));
            Sanitize(lower, name)
            == if words == "" then "unknown"
               else if |words| <= 63 then words
               else if words[62] == '-' then words[..62]
               else words[..63]
  {
    var text := lower(name);
    var words := JoinWords(text);
    JoinWordsShape(text);
    CollapseJoinsWords(text);
    var lead := if text != "" && !WordChar(text[0]) then "-" else "";
    var trail := if words != "" && !WordChar(text[|text| - 1]) then "-" else "";
    if words == "" {
      assert lead + words + trail == lead;
      LoneHyphens(lead);
    } else {
      assert lead + words + trail == lead + (words + trail);
      StripLeftOne(lead, words + trail);
      StripRightOne(words, trail);
      WordsAreApart(text);
      CutIsStripped(words);
    }
  }

  lemma {:induction false} WordsAreApart(s: string)
    ensures SingleHyphens(JoinWords(s))
  {
    if s == "" {
    } else {
      WordsAreApart(s[..|s| - 1]);
      JoinWordsShape(s[..|s| - 1]);
    }
  }

  lemma CutIsStripped(words: string)
    requires SingleHyphens(words) && words != "" && words[0] != '-' && words[|words| - 1] != '-'
    ensures StripRight(Truncate(words))
            == if |words| <= 63 then words else if words[62] == '-' then words[..62] else words[..63]
  {
    if |words| > 63 {
      assert words[..63][..62] == words[..62];
      assert !(words[61] == '-' && words[61 + 1] == '-');
    }
  }
}

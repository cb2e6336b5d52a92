/** The debug configuration overlay: a source configuration overridden by fragments, line by line. */
module Overlay {

  datatype Error = Duplicate(key: string) | EmptyFragment | InvalidLine(line: string) | DuplicateAcross(key: string)
                 | SymbolSetChanged | SymbolChanged(key: string) | NotApplied(key: string)

  datatype Result<+T> = Ok(value: T) | Err(error: Error)

  /** A Python dictionary: its keys in insertion order, and its values. */
  datatype Dict = Dict(order: seq<string>, values: map<string, string>)

  // ----- one line

  /** rstrip("\n"). */
  function Rstrip(s: string): string {
    if s != [] && s[|s| - 1] == '\n' then Rstrip(s[..|s| - 1]) else s
  }

  predicate IsWordChar(c: char) { 'A' <= c <= 'Z' || 'a' <= c <= 'z' || '0' <= c <= '9' || c == '_' }

  function WordLength(s: string): (n: nat)
    ensures n <= |s|
  {
    if s == [] || !IsWordChar(s[0]) then 0 else 1 + WordLength(s[1..])
  }

  datatype Key = NoKey | KeyOf(name: string)

  /** The symbol a line sets or comments out: optionally "# ", CONFIG_ and a word, then "=" and anything, or
      " is not set". */
  function ConfigKey(line: string): Key {
    var body := Rstrip(line);
    var text := if "# " <= body then body[2..] else body;
    if !("CONFIG_" <= text) then NoKey
    else
      var n := WordLength(text[7..]);
      var rest := text[7 + n..];
      if n > 0 && (rest == " is not set" || (rest != [] && rest[0] == '=' && '\n' !in rest)) then KeyOf(text[..7 + n])
      else NoKey
  }

  lemma {:induction false} RstripTwice(s: string)
    ensures Rstrip(Rstrip(s)) == Rstrip(s) && Rstrip(s + "\n") == Rstrip(s)
  {
    assert (s + "\n")[..|s|] == s;
    if s != [] && s[|s| - 1] == '\n' { RstripTwice(s[..|s| - 1]); }
  }

  /** The trailing newline plays no part in a line's meaning. */
  lemma NewlineIsIrrelevant(line: string)
    ensures ConfigKey(line + "\n") == ConfigKey(line) == ConfigKey(Rstrip(line)) == ConfigKey(Rstrip(line) + "\n")
    ensures Rstrip(Rstrip(line) + "\n") == Rstrip(line) && Rstrip(line + "\n") == Rstrip(line)
  {
    RstripTwice(line);
    RstripTwice(Rstrip(line));
    hide Rstrip, ConfigKey;
    SameBodySameKey(line + "\n", line);
    SameBodySameKey(line, Rstrip(line));
    SameBodySameKey(Rstrip(line), Rstrip(line) + "\n");
  }

  lemma SameBodySameKey(a: string, b: string)
    requires Rstrip(a) == Rstrip(b)
    ensures ConfigKey(a) == ConfigKey(b)
  {
    hide Rstrip, WordLength;
  }

  // ----- the grammar of a line

  predicate EndsLine(line: string) { line != [] && line[|line| - 1] == '\n' }

  function Newlines(n: nat): string { seq(n, i => '\n') }

  predicate IsWord(w: string) { w != [] && forall i :: 0 <= i < |w| ==> IsWordChar(w[i]) }

  /** What follows the symbol: a value, or the mark of an unset one. */
  predicate IsRest(rest: string) { rest == " is not set" || (rest != [] && rest[0] == '=' && '\n' !in rest) }

  function LineOf(commented: bool, w: string, rest: string, n: nat): string {
    (if commented then "# " else "") + "CONFIG_" + w + rest + Newlines(n)
  }

  /** The line sets the symbol `key`, or says that it is not set. */
  ghost predicate Mentions(line: string, key: string) {
    exists commented, w, rest, n :: IsWord(w) && IsRest(rest) && line == LineOf(commented, w, rest, n)
      && key == "CONFIG_" + w
  }

  /** A line is taken for a symbol's exactly if it is one by the grammar, commented out or not, whatever newlines end
      it. */
  lemma ConfigKeyIff(line: string, key: string)
    ensures ConfigKey(line) == KeyOf(key) <==> Mentions(line, key)
  {
    if ConfigKey(line) == KeyOf(key) { KeyMentions(line, key); }
    if Mentions(line, key) {
      var commented, w, rest, n :| IsWord(w) && IsRest(rest) && line == LineOf(commented, w, rest, n)
        && key == "CONFIG_" + w;
      LineHasKey(commented, w, rest, n);
    }
  }

  lemma {:induction false} RstripIs(s: string) returns (n: nat)
    ensures s == Rstrip(s) + Newlines(n) && !EndsLine(Rstrip(s))
    decreases |s|
  {
    if EndsLine(s) {
      var front := s[..|s| - 1];
      var m := RstripIs(front);
      n := m + 1;
      assert Newlines(n) == Newlines(m) + "\n";
      assert s == front + "\n";
    } else {
      n := 0;
      assert s == s + Newlines(0);
    }
  }

  lemma {:induction false} RstripDrops(s: string, n: nat)
    requires !EndsLine(s)
    ensures Rstrip(s + Newlines(n)) == s
    decreases n
  {
    var all := s + Newlines(n);
    if n == 0 {
      assert all == s;
    } else {
      assert all[..|all| - 1] == s + Newlines(n - 1);
      RstripDrops(s, n - 1);
    }
  }

  lemma {:induction false} WordLengthIs(s: string)
    ensures forall i :: 0 <= i < WordLength(s) ==> IsWordChar(s[i])
    ensures WordLength(s) < |s| ==> !IsWordChar(s[WordLength(s)])
    decreases |s|
  {
    if s != [] && IsWordChar(s[0]) { WordLengthIs(s[1..]); }
  }

  lemma {:induction false} WordLengthOf(w: string, rest: string)
    requires (forall i :: 0 <= i < |w| ==> IsWordChar(w[i])) && rest != [] && !IsWordChar(rest[0])
    ensures WordLength(w + rest) == |w|
    decreases |w|
  {
    if w == [] {
      assert w + rest == rest;
    } else {
      assert (w + rest)[1..] == w[1..] + rest;
      WordLengthOf(w[1..], rest);
    }
  }

  /** A line's text without newlines and comment mark. */
  function TextOf(line: string): string {
    var body := Rstrip(line);
    if "# " <= body then body[2..] else body
  }

  lemma KeyText(line: string, key: string)
    requires ConfigKey(line) == KeyOf(key)
    ensures var text := TextOf(line);
            && "CONFIG_" <= text && WordLength(text[7..]) > 0 && IsRest(text[7 + WordLength(text[7..])..])
            && key == text[..7 + WordLength(text[7..])]
  {
    hide Rstrip, WordLength;
  }

  lemma KeyMentions(line: string, key: string)
    requires ConfigKey(line) == KeyOf(key)
    ensures Mentions(line, key)
  {
    hide ConfigKey, WordLength, IsWord, IsRest, Rstrip;
    KeyText(line, key);
    var text := TextOf(line);
    var w, rest := TextParts(text);
    var n := RstripIs(line);
    Assembled(line, Rstrip(line), "# " <= Rstrip(line), text, w, rest, n);
  }

  lemma Assembled(line: string, body: string, commented: bool, text: string, w: string, rest: string, n: nat)
    requires line == body + Newlines(n) && body == (if commented then "# " else "") + text
             && text == "CONFIG_" + w + rest
    ensures line == LineOf(commented, w, rest, n)
  {
    hide Newlines;
    if commented { assert "# " + ("CONFIG_" + w + rest) == "# " + "CONFIG_" + w + rest; }
    else { assert "" + "CONFIG_" == "CONFIG_"; }
  }

  lemma TextParts(text: string) returns (w: string, rest: string)
    requires "CONFIG_" <= text && WordLength(text[7..]) > 0 && IsRest(text[7 + WordLength(text[7..])..])
    ensures text == "CONFIG_" + w + rest && IsWord(w) && IsRest(rest)
            && "CONFIG_" + w == text[..7 + WordLength(text[7..])]
  {
    WordLengthIs(text[7..]);
    hide WordLength, IsRest;
    var length := WordLength(text[7..]);
    w, rest := text[7..7 + length], text[7 + length..];
    assert forall i :: 0 <= i < length ==> w[i] == text[7..][i];
  }

  lemma LineHasKey(commented: bool, w: string, rest: string, n: nat)
    requires IsWord(w) && IsRest(rest)
    ensures ConfigKey(LineOf(commented, w, rest, n)) == KeyOf("CONFIG_" + w)
  {
    hide Rstrip, WordLength, ConfigKey;
    var text := "CONFIG_" + w + rest;
    var body := (if commented then "# " else "") + text;
    assert LineOf(commented, w, rest, n) ==
             body + Newlines(n) by { Assembled(body + Newlines(n), body, commented, text, w, rest, n); }
    hide LineOf;
    assert !EndsLine(body) by { assert body[|body| - 1] == rest[|rest| - 1]; }
    RstripDrops(body, n);
    BodyText(body, commented, text);
    TextHasKey(w, rest);
    TextMakesKey(LineOf(commented, w, rest, n), body, text, w, rest);
  }

  /** The comment mark of a body is told from its first characters. */
  lemma BodyText(body: string, commented: bool, text: string)
    requires body == (if commented then "# " else "") + text && text != [] && text[0] == 'C'
    ensures text == if "# " <= body then body[2..] else body
  {
    if commented { assert body[..2] == "# "; } else { assert body == text; }
  }

  lemma TextMakesKey(line: string, body: string, text: string, w: string, rest: string)
    requires Rstrip(line) == body && text == (if "# " <= body then body[2..] else body) && w != [] && IsRest(rest)
    requires "CONFIG_" <= text && WordLength(text[7..]) == |w| && text[7 + |w|..] == rest
    requires text[..7 + |w|] == "CONFIG_" + w
    ensures ConfigKey(line) == KeyOf("CONFIG_" + w)
  {
    hide Rstrip, WordLength;
  }

  lemma TextHasKey(w: string, rest: string)
    requires IsWord(w) && IsRest(rest)
    ensures var text := "CONFIG_" + w + rest;
            && "CONFIG_" <= text && WordLength(text[7..]) == |w| && text[..7 + |w|] == "CONFIG_" + w
               && text[7 + |w|..] == rest
  {
    hide WordLength;
    var text := "CONFIG_" + w + rest;
    assert text[7..] == w + rest;
    WordLengthOf(w, rest);
  }

  // ----- what a list of lines says

  /** The symbols in order of appearance. */
  function Keys(lines: seq<string>): seq<string> {
    if lines == [] then []
    else Keys(lines[..|lines| - 1]) + (match ConfigKey(lines[|lines| - 1]) case KeyOf(k) => [k] case NoKey => [])
  }

  /** Each symbol's line, without its newline. */
  function Values(lines: seq<string>): map<string, string> {
    if lines == [] then map[]
    else
      var front := Values(lines[..|lines| - 1]);
      match ConfigKey(lines[|lines| - 1])
      case KeyOf(k) => front[k := Rstrip(lines[|lines| - 1])]
      case NoKey => front
  }

  predicate Distinct(keys: seq<string>) { forall i, j :: 0 <= i < j < |keys| ==> keys[i] != keys[j] }

  lemma {:induction false} KeysOfValues(lines: seq<string>)
    ensures forall k :: k in Keys(lines) <==> k in Values(lines)
    ensures forall k :: k in Values(lines) ==>
              ConfigKey(Values(lines)[k]) == KeyOf(k) && Rstrip(Values(lines)[k]) == Values(lines)[k]
    decreases |lines|
  {
    if lines != [] {
      KeysOfValues(lines[..|lines| - 1]);
      NewlineIsIrrelevant(lines[|lines| - 1]);
      RstripTwice(lines[|lines| - 1]);
    }
  }

  lemma KeysSnoc(lines: seq<string>, line: string)
    ensures Keys(lines + [line]) == Keys(lines) + (match ConfigKey(line) case KeyOf(k) => [k] case NoKey => [])
    ensures Values(lines + [line]) == match ConfigKey(line)
                                      case KeyOf(k) => Values(lines)[k := Rstrip(line)]
                                      case NoKey => Values(lines)
  {
    assert (lines + [line])[..|lines|] == lines;
  }

  /** config_map. */
  method ConfigMap(lines: seq<string>) returns (r: Result<Dict>)
    ensures r.Ok? <==> Distinct(Keys(lines))
    ensures r.Ok? ==> r.value == Dict(Keys(lines), Values(lines))
    ensures r.Err? ==> r.error.Duplicate? && r.error.key in Keys(lines)
  {
    hide ConfigKey, Rstrip;
    var order, values := [], map[];
    for i := 0 to |lines|
      invariant order == Keys(lines[..i]) && values == Values(lines[..i]) && Distinct(order)
    {
      assert lines[..i + 1] == lines[..i] + [lines[i]];
      KeysSnoc(lines[..i], lines[i]);
      match ConfigKey(lines[i])
      case NoKey =>
      case KeyOf(key) =>
        if key in values {
          KeysOfValues(lines[..i]);
          RepeatedKey(lines, i, key);
          return Err(Duplicate(key));
        }
        KeysOfValues(lines[..i]);
        order := order + [key];
        values := values[key := Rstrip(lines[i])];
    }
    assert lines[..|lines|] == lines;
    return Ok(Dict(order, values));
  }

  lemma {:induction false} KeysPrefix(lines: seq<string>, i: nat)
    requires i <= |lines|
    ensures Keys(lines[..i]) <= Keys(lines)
    decreases |lines|
  {
    if i < |lines| {
      assert lines[..|lines| - 1][..i] == lines[..i];
      KeysPrefix(lines[..|lines| - 1], i);
    } else {
      assert lines[..i] == lines;
    }
  }

  lemma DistinctPrefix(keys: seq<string>, all: seq<string>)
    requires keys <= all && Distinct(all)
    ensures Distinct(keys)
  {
    assert forall i :: 0 <= i < |keys| ==> keys[i] == all[i];
  }

  lemma DistinctSnoc(keys: seq<string>, key: string)
    requires Distinct(keys)
    ensures Distinct(keys + [key]) <==> key !in keys
  {
    var all := keys + [key];
    if key in keys {
      var j :| 0 <= j < |keys| && keys[j] == key;
      assert all[j] == all[|keys|];
    }
  }

  lemma RepeatedKey(lines: seq<string>, i: nat, key: string)
    requires i < |lines| && ConfigKey(lines[i]) == KeyOf(key) && key in Keys(lines[..i]) && Distinct(Keys(lines[..i]))
    ensures !Distinct(Keys(lines)) && key in Keys(lines)
  {
    hide ConfigKey, Keys, Distinct;
    assert lines[..i + 1] == lines[..i] + [lines[i]];
    KeysSnoc(lines[..i], lines[i]);
    KeysPrefix(lines, i + 1);
    DistinctSnoc(Keys(lines[..i]), key);
    if Distinct(Keys(lines)) { DistinctPrefix(Keys(lines[..i + 1]), Keys(lines)); }
    var all := Keys(lines);
    assert all[|Keys(lines[..i])|] == key;
  }

  // ----- fragments

  /** The ASCII white space of strip(). */
  predicate IsSpace(c: char) { c == ' ' || 9 <= c as int <= 13 || 28 <= c as int <= 31 }

  function Strip(s: string): string
    decreases |s|
  {
    if s != [] && IsSpace(s[0]) then Strip(s[1..])
    else if s != [] && IsSpace(s[|s| - 1]) then Strip(s[..|s| - 1])
    else s
  }

  /** A line of a fragment is blank, a comment or a symbol's line. */
  predicate LineOk(line: string) {
    var stripped := Strip(line);
    stripped == [] || stripped[0] == '#' || ConfigKey(line).KeyOf?
  }

  predicate AllSpace(s: string) { forall i :: 0 <= i < |s| ==> IsSpace(s[i]) }

  /** The first character that is not white space, if any, is `c`. */
  predicate StartsWith(s: string, c: char) { exists i :: 0 <= i < |s| && s[i] == c && AllSpace(s[..i]) }

  lemma {:induction false} StripKeepsFirst(s: string)
    ensures Strip(s) == [] <==> AllSpace(s)
    ensures Strip(s) != [] && !IsSpace('#') ==> (Strip(s)[0] == '#' <==> StartsWith(s, '#'))
    decreases |s|
  {
    if s == [] {
    } else if IsSpace(s[0]) {
      StripKeepsFirst(s[1..]);
      LaterStart(s);
    } else if IsSpace(s[|s| - 1]) {
      StripKeepsFirst(s[..|s| - 1]);
      FirstIsFirst(s);
      FirstIsFirst(s[..|s| - 1]);
    } else {
      FirstIsFirst(s);
    }
  }

  lemma FirstIsFirst(s: string)
    requires s != [] && !IsSpace(s[0])
    ensures !AllSpace(s) && (StartsWith(s, '#') <==> s[0] == '#')
  {
    if s[0] == '#' { assert AllSpace(s[..0]); }
    if StartsWith(s, '#') {
      var i :| 0 <= i < |s| && s[i] == '#' && AllSpace(s[..i]);
      if i > 0 { FrontStarts(s, i); }
    }
  }

  lemma FrontStarts(s: string, i: nat)
    requires 0 < i <= |s| && AllSpace(s[..i])
    ensures IsSpace(s[0])
  {
    assert s[..i][0] == s[0];
  }

  lemma LaterStart(s: string)
    requires s != [] && IsSpace(s[0]) && !IsSpace('#')
    ensures AllSpace(s) <==> AllSpace(s[1..])
    ensures StartsWith(s, '#') <==> StartsWith(s[1..], '#')
  {
    assert s == [s[0]] + s[1..];
    SpaceBefore(s[0], s[1..]);
    if StartsWith(s, '#') {
      var i :| 0 <= i < |s| && s[i] == '#' && AllSpace(s[..i]);
      assert s[1..][i - 1] == '#' && s[..i] == [s[0]] + s[1..][..i - 1];
      SpaceBefore(s[0], s[1..][..i - 1]);
    }
    if StartsWith(s[1..], '#') {
      var i :| 0 <= i < |s| - 1 && s[1..][i] == '#' && AllSpace(s[1..][..i]);
      assert s[i + 1] == '#' && s[..i + 1] == [s[0]] + s[1..][..i];
      SpaceBefore(s[0], s[1..][..i]);
    }
  }

  lemma SpaceBefore(c: char, s: string)
    requires IsSpace(c)
    ensures AllSpace([c] + s) <==> AllSpace(s)
  {
    if AllSpace([c] + s) {
      forall i | 0 <= i < |s| ensures IsSpace(s[i]) { assert s[i] == ([c] + s)[i + 1]; }
    }
  }

  /** A fragment's line is acceptable exactly if it is blank, or a comment, or mentions a symbol. */
  lemma LineOkIff(line: string)
    ensures LineOk(line) <==> AllSpace(line) || StartsWith(line, '#') || exists key :: Mentions(line, key)
  {
    hide Strip, ConfigKey, Mentions;
    StripKeepsFirst(line);
    if ConfigKey(line).KeyOf? { ConfigKeyIff(line, ConfigKey(line).name); }
    if key :| Mentions(line, key) { ConfigKeyIff(line, key); }
    if StartsWith(line, '#') { NotBlank(line); }
  }

  lemma NotBlank(s: string)
    requires StartsWith(s, '#')
    ensures !AllSpace(s)
  {
    var i :| 0 <= i < |s| && s[i] == '#' && AllSpace(s[..i]);
  }

  predicate FragmentOk(lines: seq<string>) {
    Distinct(Keys(lines)) && Keys(lines) != [] && forall i :: 0 <= i < |lines| ==> LineOk(lines[i])
  }

  method ReadFragment(lines: seq<string>) returns (r: Result<Dict>)
    ensures r.Ok? <==> FragmentOk(lines)
    ensures r.Ok? ==> r.value == Dict(Keys(lines), Values(lines))
    ensures r.Err? ==> r.error.Duplicate? || r.error.EmptyFragment? || r.error.InvalidLine?
  {
    hide ConfigKey, Rstrip, Strip;
    var parsed := ConfigMap(lines);
    if parsed.Err? { return parsed; }
    EmptyAlike(lines);
    if parsed.value.values == map[] { return Err(EmptyFragment); }
    for i := 0 to |lines|
      invariant forall j :: 0 <= j < i ==> LineOk(lines[j])
    {
      var stripped := Strip(lines[i]);
      if stripped != [] && stripped[0] != '#' && ConfigKey(lines[i]) == NoKey {
        assert !LineOk(lines[i]);
        return Err(InvalidLine(stripped));
      }
    }
    return parsed;
  }

  lemma EmptyAlike(lines: seq<string>)
    ensures Keys(lines) == [] <==> Values(lines) == map[]
  {
    KeysOfValues(lines);
    assert Keys(lines) != [] ==> Keys(lines)[0] in Values(lines);
    assert Values(lines) != map[] ==> Values(lines).Keys != {};
  }

  function Flatten(files: seq<seq<string>>): seq<string> {
    if files == [] then [] else Flatten(files[..|files| - 1]) + files[|files| - 1]
  }

  lemma {:induction false} KeysConcat(xs: seq<string>, ys: seq<string>)
    ensures Keys(xs + ys) == Keys(xs) + Keys(ys)
    ensures Values(xs + ys) == Values(xs) + Values(ys)
    decreases |ys|
  {
    hide ConfigKey, Rstrip, Keys, Values;
    if ys == [] {
      assert xs + ys == xs;
      NoLines(ys);
    } else {
      var front, last := ys[..|ys| - 1], ys[|ys| - 1];
      assert xs + ys == xs + front + [last] && ys == front + [last];
      KeysConcat(xs, front);
      KeysSnoc(xs + front, last);
      KeysSnoc(front, last);
    }
  }

  predicate FragmentsOk(files: seq<seq<string>>) {
    (forall i :: 0 <= i < |files| ==> FragmentOk(files[i])) && Distinct(Keys(Flatten(files)))
  }

  /** The inner loop of read_fragments: the entries of one fragment join the dictionary. */
  method AddEntries(d: Dict, more: Dict) returns (r: Result<Dict>)
    requires Distinct(d.order) && (forall k :: k in d.order <==> k in d.values)
    requires Distinct(more.order) && (forall k :: k in more.order <==> k in more.values)
    ensures r.Ok? <==> Distinct(d.order + more.order)
    ensures r.Ok? ==> r.value == Dict(d.order + more.order, d.values + more.values)
    ensures r.Err? ==> r.error.DuplicateAcross?
  {
    hide Distinct;
    var order, values := d.order, d.values;
    assert d.order + more.order[..0] == d.order;
    for i := 0 to |more.order|
      invariant order == d.order + more.order[..i] && Distinct(order)
      invariant forall k :: k in values <==> k in d.values || k in more.order[..i]
      invariant forall k :: k in values ==> values[k] == if k in more.order[..i] then more.values[k] else d.values[k]
    {
      var key := more.order[i];
      assert more.order[..i + 1] == more.order[..i] + [key];
      AddsKey(d.order, more.order, i);
      if key in values { return Err(DuplicateAcross(key)); }
      order := order + [key];
      values := values[key := more.values[key]];
    }
    assert more.order[..|more.order|] == more.order;
    assert values == d.values + more.values;
    return Ok(Dict(order, values));
  }

  /** The next key is new exactly if no earlier one equals it; a repeated one spoils the whole list. */
  lemma AddsKey(known: seq<string>, more: seq<string>, i: nat)
    requires i < |more| && Distinct(known + more[..i]) && Distinct(more)
    ensures more[i] !in more[..i]
    ensures known + (more[..i] + [more[i]]) == known + more[..i] + [more[i]]
    ensures if more[i] in known then !Distinct(known + more) else Distinct(known + (more[..i] + [more[i]]))
  {
    var front := known + more[..i];
    assert front + [more[i]] == known + (more[..i] + [more[i]]);
    DistinctSnoc(front, more[i]);
    assert more[i] in front <==> more[i] in known || more[i] in more[..i];
    if more[i] in known && Distinct(known + more) {
      assert front + [more[i]] <= known + more;
      DistinctPrefix(front + [more[i]], known + more);
    }
  }

  method ReadFragments(files: seq<seq<string>>) returns (r: Result<Dict>)
    ensures r.Ok? <==> FragmentsOk(files)
    ensures r.Ok? ==> r.value == Dict(Keys(Flatten(files)), Values(Flatten(files)))
    ensures r.Err? ==> !r.error.SymbolSetChanged? && !r.error.SymbolChanged? && !r.error.NotApplied?
  {
    hide ConfigKey, Rstrip, FragmentOk;
    var d := Dict([], map[]);
    for i := 0 to |files|
      invariant d == Dict(Keys(Flatten(files[..i])), Values(Flatten(files[..i]))) && FragmentsOk(files[..i])
    {
      assert files[..i + 1][..i] == files[..i];
      var front := Flatten(files[..i]);
      KeysConcat(front, files[i]);
      KeysOfValues(front);
      KeysOfValues(files[i]);
      var one := ReadFragment(files[i]);
      if one.Err? { return one; }
      FragmentKeys(files[i]);
      var joined := AddEntries(d, one.value);
      if joined.Err? {
        StillRepeated(files, i);
        return joined;
      }
      d := joined.value;
      assert Flatten(files[..i + 1]) == front + files[i];
    }
    assert files[..|files|] == files;
    return Ok(d);
  }

  lemma FragmentKeys(lines: seq<string>)
    requires FragmentOk(lines)
    ensures Distinct(Keys(lines))
  {
  }

  /** A key repeated among the first fragments is repeated among all. */
  lemma StillRepeated(files: seq<seq<string>>, i: nat)
    requires i < |files| && !Distinct(Keys(Flatten(files[..i])) + Keys(files[i]))
    ensures !FragmentsOk(files)
  {
    assert files[..i + 1][..i] == files[..i];
    KeysConcat(Flatten(files[..i]), files[i]);
    FlattenPrefix(files, i + 1);
    var front := Flatten(files[..i + 1]);
    var all := Flatten(files);
    assert all[..|front|] == front;
    KeysPrefix(all, |front|);
    var keys := Keys(front);
    var x, y :| 0 <= x < y < |keys| && keys[x] == keys[y];
    assert Keys(all)[x] == keys[x] && Keys(all)[y] == keys[y];
  }

  lemma {:induction false} FlattenPrefix(files: seq<seq<string>>, i: nat)
    requires i <= |files|
    ensures Flatten(files[..i]) <= Flatten(files)
    decreases |files|
  {
    if i < |files| {
      assert files[..|files| - 1][..i] == files[..i];
      FlattenPrefix(files[..|files| - 1], i);
    } else {
      assert files[..i] == files;
    }
  }

  // ----- the merge

  /** A line of the source, replaced if a fragment sets its symbol. */
  function Replaced(line: string, f: map<string, string>): string {
    match ConfigKey(line)
    case KeyOf(k) => if k in f then f[k] + "\n" else line
    case NoKey => line
  }

  function ReplacedAll(lines: seq<string>, f: map<string, string>): seq<string> {
    seq(|lines|, i requires 0 <= i < |lines| => Replaced(lines[i], f))
  }

  function Terminated(lines: seq<string>): seq<string> {
    if lines == [] || EndsLine(lines[|lines| - 1]) then lines else lines[|lines| - 1 := lines[|lines| - 1] + "\n"]
  }

  /** The fragments' symbols the source does not have, in their order. */
  function Additions(order: seq<string>, known: seq<string>, f: map<string, string>): seq<string>
    requires forall k :: k in order ==> k in f
  {
    if order == [] then []
    else
      var last := order[|order| - 1];
      Additions(order[..|order| - 1], known, f) + (if last in known then [] else [f[last] + "\n"])
  }

  /** The overlay of a source and the concatenated lines of the fragments. */
  function Merged(source: seq<string>, fragments: seq<string>): seq<string> {
    KeysOfValues(fragments);
    var f := Values(fragments);
    Terminated(ReplacedAll(source, f)) + Additions(Keys(fragments), Keys(source), f)
  }

  /** The values of `f` are lines of the symbols they are filed under. */
  predicate Filed(f: map<string, string>) {
    forall k :: k in f ==> ConfigKey(f[k]) == KeyOf(k) && Rstrip(f[k]) == f[k]
  }

  lemma ReplacedLine(line: string, f: map<string, string>)
    requires Filed(f)
    ensures ConfigKey(Replaced(line, f)) == ConfigKey(line)
    ensures ConfigKey(line).KeyOf? ==>
              Rstrip(Replaced(line, f)) == if ConfigKey(line).name in f then f[ConfigKey(line).name] else Rstrip(line)
    ensures Replaced(Replaced(line, f), f) == Replaced(line, f)
  {
    match ConfigKey(line)
    case KeyOf(k) => if k in f { NewlineIsIrrelevant(f[k]); }
    case NoKey =>
  }

  /** Replacing lines in place keeps the symbols and overrides exactly the values the fragments set. */
  lemma {:induction false} ReplacedSays(lines: seq<string>, f: map<string, string>)
    requires Filed(f)
    ensures Keys(ReplacedAll(lines, f)) == Keys(lines)
    ensures Values(ReplacedAll(lines, f)) == map k | k in Values(lines) :: if k in f then f[k] else Values(lines)[k]
    decreases |lines|
  {
    hide ConfigKey, Rstrip, Replaced, Keys, Values;
    if lines == [] {
      NoLines(lines);
      NoLines(ReplacedAll(lines, f));
    } else {
      var front, last := lines[..|lines| - 1], lines[|lines| - 1];
      ReplacedSays(front, f);
      ReplacedLine(last, f);
      assert ReplacedAll(lines, f) == ReplacedAll(front, f) + [Replaced(last, f)];
      hide ReplacedAll;
      assert lines == front + [last];
      KeysSnoc(ReplacedAll(front, f), Replaced(last, f));
      KeysSnoc(front, last);
    }
  }

  lemma NoLines(lines: seq<string>)
    requires lines == []
    ensures Keys(lines) == [] && Values(lines) == map[]
  {
  }

  lemma TerminatedSays(lines: seq<string>)
    ensures Keys(Terminated(lines)) == Keys(lines) && Values(Terminated(lines)) == Values(lines)
  {
    if lines != [] && !EndsLine(lines[|lines| - 1]) {
      var front, last := lines[..|lines| - 1], lines[|lines| - 1];
      assert Terminated(lines) == front + [last + "\n"] && lines == front + [last];
      NewlineIsIrrelevant(last);
      KeysSnoc(front, last);
      KeysSnoc(front, last + "\n");
    }
  }

  function Missing(order: seq<string>, known: seq<string>): seq<string> {
    if order == [] then []
    else Missing(order[..|order| - 1], known) + (if order[|order| - 1] in known then [] else [order[|order| - 1]])
  }

  lemma {:induction false} AdditionsSay(order: seq<string>, known: seq<string>, f: map<string, string>)
    requires Filed(f) && forall k :: k in order ==> k in f
    ensures Keys(Additions(order, known, f)) == Missing(order, known)
    ensures forall k :: k in Values(Additions(order, known, f)) <==> k in Missing(order, known)
    ensures forall k :: k in Missing(order, known) ==> k in f && Values(Additions(order, known, f))[k] == f[k]
    ensures forall k :: k in Missing(order, known) <==> k in order && k !in known
    decreases |order|
  {
    hide ConfigKey, Rstrip, Keys, Values;
    if order == [] {
      NoLines(Additions(order, known, f));
    } else {
      var front, last := order[..|order| - 1], order[|order| - 1];
      AdditionsSay(front, known, f);
      assert order == front + [last];
      if last in known {
        assert Additions(order, known, f) == Additions(front, known, f)
               && Missing(order, known) == Missing(front, known);
      } else {
        assert Additions(order, known, f) == Additions(front, known, f) + [f[last] + "\n"];
        assert Missing(order, known) == Missing(front, known) + [last];
        hide Additions, Missing;
        AddedLine(Additions(front, known, f), last, f);
      }
    }
  }

  lemma AddedLine(before: seq<string>, key: string, f: map<string, string>)
    requires Filed(f) && key in f
    ensures Keys(before + [f[key] + "\n"]) == Keys(before) + [key]
    ensures Values(before + [f[key] + "\n"]) == Values(before)[key := f[key]]
  {
    hide ConfigKey, Rstrip, Keys, Values;
    NewlineIsIrrelevant(f[key]);
    KeysSnoc(before, f[key] + "\n");
  }

  lemma {:induction false} MissingDistinct(order: seq<string>, known: seq<string>)
    requires Distinct(order)
    ensures Distinct(Missing(order, known)) && forall k :: k in Missing(order, known) <==> k in order && k !in known
    decreases |order|
  {
    if order != [] { MissingDistinct(order[..|order| - 1], known); }
  }

  /** The merged configuration is the source's, overridden by the fragments': the same map, and no symbol twice. */
  lemma MergedIsOverride(source: seq<string>, fragments: seq<string>)
    requires Distinct(Keys(source)) && Distinct(Keys(fragments))
    ensures Values(Merged(source, fragments)) == Values(source) + Values(fragments)
    ensures Distinct(Keys(Merged(source, fragments)))
    ensures Keys(Merged(source, fragments)) == Keys(source) + Missing(Keys(fragments), Keys(source))
  {
    var f := Values(fragments);
    KeysOfValues(fragments);
    KeysOfValues(source);
    assert Filed(f);
    hide ConfigKey, Rstrip, Terminated, ReplacedAll, Additions, Keys, Values, Distinct, Missing, Filed;
    var body := Terminated(ReplacedAll(source, f));
    var more := Additions(Keys(fragments), Keys(source), f);
    ReplacedSays(source, f);
    TerminatedSays(ReplacedAll(source, f));
    AdditionsSay(Keys(fragments), Keys(source), f);
    MissingDistinct(Keys(fragments), Keys(source));
    KeysConcat(body, more);
    DistinctConcat(Keys(source), Missing(Keys(fragments), Keys(source)));
    Override(Values(source), f, Values(body), Values(more));
  }

  lemma Override(m: map<string, string>, f: map<string, string>, body: map<string, string>, more: map<string, string>)
    requires body == map k | k in m :: if k in f then f[k] else m[k]
    requires forall k :: k in more <==> k in f && k !in m
    requires forall k :: k in more ==> more[k] == f[k]
    ensures body + more == m + f
  {
  }

  lemma DistinctConcat(xs: seq<string>, ys: seq<string>)
    requires Distinct(xs) && Distinct(ys) && forall y :: y in ys ==> y !in xs
    ensures Distinct(xs + ys)
  {
    forall i, j | 0 <= i < j < |xs + ys| ensures (xs + ys)[i] != (xs + ys)[j] {
      if i < |xs| <= j { assert ys[j - |xs|] in ys; }
    }
  }

  /** Every line of the source keeps its place; one whose symbol no fragment sets keeps its text as well, a missing
      final newline apart; only new symbols follow. */
  lemma MergedKeepsLines(source: seq<string>, fragments: seq<string>, i: nat)
    requires i < |source|
    ensures i < |Merged(source, fragments)|
    ensures var merged := Merged(source, fragments)[i]; var f := Values(fragments);
            match ConfigKey(source[i])
            case KeyOf(k) => if k in f then merged == f[k] + "\n" else merged == source[i] || merged == source[i] + "\n"
            case NoKey => merged == source[i] || merged == source[i] + "\n"
    ensures (i + 1 < |source| || EndsLine(source[i]))
            && !(ConfigKey(source[i]).KeyOf? && ConfigKey(source[i]).name in Values(fragments))
            ==> Merged(source, fragments)[i] == source[i]
  {
    hide ConfigKey, Rstrip, Keys, Values, Additions;
    var replaced := ReplacedAll(source, Values(fragments));
    TerminatedAt(replaced, i);
    MergedAt(source, fragments, i);
  }

  /** What follows are the lines of the symbols the source does not have, in the fragments' order. */
  lemma MergedAppends(source: seq<string>, fragments: seq<string>, i: nat)
    ensures |Merged(source, fragments)| == |source| + |Missing(Keys(fragments), Keys(source))|
    ensures i < |Missing(Keys(fragments), Keys(source))| ==>
              var key := Missing(Keys(fragments), Keys(source))[i];
              key in Values(fragments) && Merged(source, fragments)[|source| + i] == Values(fragments)[key] + "\n"
  {
    KeysOfValues(fragments);
    hide ConfigKey, Rstrip, Keys, Values, Additions, Missing;
    AdditionsAre(Keys(fragments), Keys(source), Values(fragments));
  }

  lemma {:induction false} AdditionsAre(order: seq<string>, known: seq<string>, f: map<string, string>)
    requires forall k :: k in order ==> k in f
    ensures |Additions(order, known, f)| == |Missing(order, known)|
    ensures forall i :: 0 <= i < |Missing(order, known)| ==>
              Missing(order, known)[i] in f && Additions(order, known, f)[i] == f[Missing(order, known)[i]] + "\n"
    decreases |order|
  {
    if order != [] { AdditionsAre(order[..|order| - 1], known, f); }
  }

  lemma MergedAt(source: seq<string>, fragments: seq<string>, i: nat)
    requires i < |source|
    ensures i < |Merged(source, fragments)|
            && Merged(source, fragments)[i] == Terminated(ReplacedAll(source, Values(fragments)))[i]
  {
    hide ConfigKey, Rstrip, Keys, Values, Additions;
  }

  lemma TerminatedAt(lines: seq<string>, i: nat)
    requires i < |lines|
    ensures |Terminated(lines)| == |lines|
    ensures Terminated(lines)[i] == if i + 1 == |lines| && !EndsLine(lines[i]) then lines[i] + "\n" else lines[i]
  {
  }

  /** Merging the same fragments again changes nothing. */
  lemma MergeIsIdempotent(source: seq<string>, fragments: seq<string>)
    requires Distinct(Keys(source)) && Distinct(Keys(fragments))
    ensures Merged(Merged(source, fragments), fragments) == Merged(source, fragments)
  {
    var f := Values(fragments);
    hide ConfigKey, Rstrip, Replaced, Keys, Values, Distinct, EndsLine;
    KeysOfValues(fragments);
    MergedIsOverride(source, fragments);
    MissingDistinct(Keys(fragments), Keys(source));
    var once := Merged(source, fragments);
    MergedLength(source, fragments);
    hide Merged;
    forall i | 0 <= i < |once| ensures Replaced(once[i], f) == once[i] { MergedLineStays(source, fragments, i); }
    assert ReplacedAll(once, f) == once;
    if once != [] { MergedLineStays(source, fragments, |once| - 1); }
    assert Terminated(once) == once;
    NothingMissing(Keys(fragments), Keys(once), f);
    MergedTwice(once, fragments);
  }

  lemma MergedLength(source: seq<string>, fragments: seq<string>)
    ensures |Merged(source, fragments)| >= |source|
  {
  }

  lemma MergedTwice(once: seq<string>, fragments: seq<string>)
    requires forall k :: k in Keys(fragments) ==> k in Values(fragments)
    requires Terminated(ReplacedAll(once, Values(fragments))) == once
             && Additions(Keys(fragments), Keys(once), Values(fragments)) == []
    ensures Merged(once, fragments) == once
  {
    hide ConfigKey, Rstrip, Keys, Values, Additions, Terminated, ReplacedAll;
  }

  lemma MergedLineStays(source: seq<string>, fragments: seq<string>, i: nat)
    requires i < |Merged(source, fragments)|
    ensures Replaced(Merged(source, fragments)[i], Values(fragments)) == Merged(source, fragments)[i]
    ensures i + 1 >= |source| ==> EndsLine(Merged(source, fragments)[i])
  {
    var f := Values(fragments);
    KeysOfValues(fragments);
    assert Filed(f);
    hide ConfigKey, Rstrip, Keys, Values, Additions, Filed, Replaced, EndsLine;
    var replaced := ReplacedAll(source, f);
    var body := Terminated(replaced);
    assert |body| == |source|;
    if i < |source| {
      assert Merged(source, fragments)[i] == body[i];
      TerminatedAt(replaced, i);
      SourceLineStays(source[i], f);
    } else {
      assert Merged(source, fragments)[i] == Additions(Keys(fragments), Keys(source), f)[i - |source|];
      AdditionLine(Keys(fragments), Keys(source), f, i - |source|);
    }
  }

  lemma SourceLineStays(line: string, f: map<string, string>)
    requires Filed(f)
    ensures var x := Replaced(line, f);
            Replaced(x, f) == x && EndsLine(x + "\n") && (!EndsLine(x) ==> Replaced(x + "\n", f) == x + "\n")
  {
    var x := Replaced(line, f);
    ReplacedLine(line, f);
    NewlineIsIrrelevant(x);
    hide ConfigKey, Rstrip, Filed;
  }

  lemma {:induction false} AdditionLine(order: seq<string>, known: seq<string>, f: map<string, string>, i: nat)
    requires Filed(f) && (forall k :: k in order ==> k in f) && i < |Additions(order, known, f)|
    ensures EndsLine(Additions(order, known, f)[i])
    ensures Replaced(Additions(order, known, f)[i], f) == Additions(order, known, f)[i]
    decreases |order|
  {
    hide ConfigKey, Rstrip, Replaced;
    var front, last := order[..|order| - 1], order[|order| - 1];
    if i < |Additions(front, known, f)| {
      AdditionLine(front, known, f, i);
    } else {
      FiledLine(last, f);
    }
  }

  lemma FiledLine(key: string, f: map<string, string>)
    requires Filed(f) && key in f
    ensures Replaced(f[key] + "\n", f) == f[key] + "\n"
  {
    NewlineIsIrrelevant(f[key]);
    hide ConfigKey, Rstrip;
  }

  lemma {:induction false} NothingMissing(order: seq<string>, known: seq<string>, f: map<string, string>)
    requires (forall k :: k in order ==> k in f) && forall k :: k in order ==> k in known
    ensures Additions(order, known, f) == []
    decreases |order|
  {
    if order != [] { NothingMissing(order[..|order| - 1], known, f); }
  }

  /** merge_config on the lines of its files. It fails exactly when the source repeats a symbol or a fragment is not
      acceptable; the duplicate check on the merged lines and the three checks after the merge never fire. */
  method MergeConfig(source: seq<string>, files: seq<seq<string>>) returns (r: Result<seq<string>>)
    ensures r.Ok? <==> Distinct(Keys(source)) && FragmentsOk(files)
    ensures r.Ok? ==> r.value == Merged(source, Flatten(files))
    ensures r.Err? ==> !r.error.SymbolSetChanged? && !r.error.SymbolChanged? && !r.error.NotApplied?
  {
    hide ConfigKey, Rstrip, FragmentsOk;
    var sourceValues := ConfigMap(source);
    if sourceValues.Err? { return Err(sourceValues.error); }
    var fragmentValues := ReadFragments(files);
    if fragmentValues.Err? { return Err(fragmentValues.error); }
    var f := fragmentValues.value;
    ghost var fragments := Flatten(files);
    FragmentsDistinct(files);
    KeysOfValues(fragments);
    KeysOfValues(source);
    MergedIsOverride(source, fragments);
    var merged := MergeLines(source, f);
    var mergedValues := ConfigMap(merged);
    if mergedValues.Err? {
      assert false;
      return Err(SymbolSetChanged);
    }
    if mergedValues.value.values.Keys != sourceValues.value.values.Keys + f.values.Keys {
      return Err(SymbolSetChanged);
    }
    for i := 0 to |sourceValues.value.order| {
      var key := sourceValues.value.order[i];
      if key !in f.values && mergedValues.value.values[key] != sourceValues.value.values[key] {
        return Err(SymbolChanged(key));
      }
    }
    for i := 0 to |f.order| {
      var key := f.order[i];
      if mergedValues.value.values[key] != f.values[key] { return Err(NotApplied(key)); }
    }
    return Ok(merged);
  }

  lemma FragmentsDistinct(files: seq<seq<string>>)
    requires FragmentsOk(files)
    ensures Distinct(Keys(Flatten(files)))
  {
  }

  /** The loop that replaces lines in place, and the symbols it replaced. */
  method ReplaceLines(source: seq<string>, f: map<string, string>) returns (merged: seq<string>, replaced: set<string>)
    ensures merged == ReplacedAll(source, f) && forall k :: k in replaced <==> k in f && k in Keys(source)
  {
    hide ConfigKey, Rstrip;
    merged := source;
    replaced := {};
    for index := 0 to |source|
      invariant |merged| == |source| && merged[index..] == source[index..]
      invariant forall i :: 0 <= i < index ==> merged[i] == Replaced(source[i], f)
      invariant forall k :: k in replaced <==> k in f && k in Keys(source[..index])
    {
      assert source[..index + 1] == source[..index] + [source[index]];
      KeysSnoc(source[..index], source[index]);
      assert merged[index] == source[index];
      match ConfigKey(merged[index]) {
        case NoKey =>
        case KeyOf(key) =>
          if key in f {
            merged := merged[index := f[key] + "\n"];
            replaced := replaced + {key};
          }
      }
    }
    assert source[..|source|] == source;
  }

  /** The merge up to its own checks. */
  method MergeLines(source: seq<string>, f: Dict) returns (merged: seq<string>)
    requires forall k :: k in f.order <==> k in f.values
    ensures merged == Terminated(ReplacedAll(source, f.values)) + Additions(f.order, Keys(source), f.values)
  {
    hide ConfigKey, Rstrip, ReplacedAll, Keys;
    var replaced;
    merged, replaced := ReplaceLines(source, f.values);
    if merged != [] && !EndsLine(merged[|merged| - 1]) {
      merged := merged[|merged| - 1 := merged[|merged| - 1] + "\n"];
    }
    ghost var body := merged;
    for i := 0 to |f.order|
      invariant merged == body + Additions(f.order[..i], Keys(source), f.values)
    {
      assert f.order[..i + 1][..i] == f.order[..i];
      var key := f.order[i];
      if key !in replaced { merged := merged + [f.values[key] + "\n"]; }
    }
    assert f.order[..|f.order|] == f.order;
  }
}

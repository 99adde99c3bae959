/** Path templates (cmd/protoc-gen-go-gin/main.go, toGinPath): the index loop, a
    recursive translator that it refines, and the grammar of templates. Paths are
    sequences of Unicode characters; all delimiters are ASCII. */
module GinPath {
  import opened Options

  datatype Error = InvalidTemplate | NestedField

  datatype Result = Ok(path: string, vars: seq<string>) | Err(error: Error)

  // ---------- library functions ----------

  /** unicode.IsSpace */
  predicate IsSpace(c: char) {
    || '\t' <= c <= '\r' || c == ' ' || c == '\U{0085}' || c == '\U{00A0}' || c == '\U{1680}'
    || '\U{2000}' <= c <= '\U{200A}' || c == '\U{2028}' || c == '\U{2029}' || c == '\U{202F}' || c == '\U{205F}'
    || c == '\U{3000}'
  }

  function TrimSpaceLeft(s: string): string {
    if s != [] && IsSpace(s[0]) then TrimSpaceLeft(s[1..]) else s
  }

  function TrimSpaceRight(s: string): string {
    if s != [] && IsSpace(s[|s| - 1]) then TrimSpaceRight(s[..|s| - 1]) else s
  }

  function TrimSpace(s: string): string {
    TrimSpaceRight(TrimSpaceLeft(s))
  }

  /** The first position of `c`, or the length if there is none. */
  function IndexOf(s: string, c: char): (i: nat)
    ensures i <= |s| && c !in s[..i] && (i < |s| ==> s[i] == c)
  {
    if s == [] || s[0] == c then 0 else
    var i := IndexOf(s[1..], c);
    assert s[..i + 1] == [s[0]] + s[1..][..i];
    i + 1
  }

  lemma IndexIsFirst(s: string, c: char, i: nat)
    requires i <= |s| && c !in s[..i] && (i < |s| ==> s[i] == c)
    ensures IndexOf(s, c) == i
  {
    var j := IndexOf(s, c);
    assert forall k :: 0 <= k < i ==> s[k] == s[..i][k];
    assert forall k :: 0 <= k < j ==> s[k] == s[..j][k];
  }

  predicate HasDoubleStar(s: string) {
    exists i :: 0 <= i < |s| - 1 && s[i] == '*' && s[i + 1] == '*'
  }

  // ---------- one braced field ----------

  /** What is before the first '=', without surrounding space. */
  function FieldName(token: string): string {
    TrimSpace(token[..IndexOf(token, '=')])
  }

  /** What is after the first '=', if there is one. */
  function Template(token: string): string {
    var i := IndexOf(token, '=');
    if i < |token| then token[i + 1..] else []
  }

  function Marker(token: string): char {
    if '/' in Template(token) || HasDoubleStar(Template(token)) then '*' else ':'
  }

  function FieldError(token: string): Option<Error> {
    if '.' in FieldName(token) then Some(NestedField)
    else if FieldName(token) == [] then Some(InvalidTemplate)
    else None
  }

  // ---------- the recursive translator ----------

  function Join(out: string, vars: seq<string>, rest: Result): Result {
    match rest
    case Ok(path, more) => Ok(out + path, vars + more)
    case Err(e) => Err(e)
  }

  function Translate(path: string): Result
    decreases |path|
  {
    if path == [] then Ok([], [])
    else if path[0] != '{' then Join([path[0]], [], Translate(path[1..]))
    else
      var end := IndexOf(path, '}');
      if end == |path| then Err(InvalidTemplate)
      else
        var token := path[1..end];
        match FieldError(token)
        case Some(e) => Err(e)
        case None => Join([Marker(token)] + FieldName(token), [FieldName(token)], Translate(path[end + 1..]))
  }

  // ---------- the loop ----------

  lemma JoinJoin(out: string, vars: seq<string>, out': string, vars': seq<string>, rest: Result)
    ensures Join(out, vars, Join(out', vars', rest)) == Join(out + out', vars + vars', rest)
  {
    if rest.Ok? {
      assert out + (out' + rest.path) == (out + out') + rest.path;
      assert vars + (vars' + rest.vars) == (vars + vars') + rest.vars;
    }
  }

  lemma JoinNothing(rest: Result)
    ensures Join([], [], rest) == rest
  {
    if rest.Ok? {
      assert [] + rest.path == rest.path;
      assert [] + rest.vars == rest.vars;
    }
  }

  lemma AtChar(path: string, i: nat, b: string, vars: seq<string>)
    requires i < |path| && path[i] != '{'
    ensures Join(b, vars, Translate(path[i..])) == Join(b + [path[i]], vars, Translate(path[i + 1..]))
  {
    assert path[i..][1..] == path[i + 1..];
    JoinJoin(b, vars, [path[i]], [], Translate(path[i + 1..]));
    assert vars + [] == vars;
  }

  lemma AtOpenBrace(path: string, i: nat)
    requires i < |path| && path[i] == '{' && i + IndexOf(path[i..], '}') == |path|
    ensures Translate(path[i..]) == Err(InvalidTemplate)
  {
  }

  /** What is written at a closed brace. */
  function Bound(token: string, b: string, vars: seq<string>): Result {
    match FieldError(token)
    case Some(e) => Err(e)
    case None => Ok(b + ([Marker(token)] + FieldName(token)), vars + [FieldName(token)])
  }

  lemma AtBrace(path: string, i: nat, end: nat, b: string, vars: seq<string>)
    requires i < end < |path| && path[i] == '{' && end == i + IndexOf(path[i..], '}')
    ensures match Bound(path[i + 1..end], b, vars)
            case Err(e) => Translate(path[i..]) == Err(e)
            case Ok(out, more) => Join(b, vars, Translate(path[i..])) == Join(out, more, Translate(path[end + 1..]))
  {
    var rest, token := path[i..], path[i + 1..end];
    assert rest[1..end - i] == token;
    assert rest[end - i + 1..] == path[end + 1..];
    if FieldError(token).None? {
      UnfoldBrace(rest, end - i);
      JoinJoin(b, vars, [Marker(token)] + FieldName(token), [FieldName(token)], Translate(path[end + 1..]));
    }
  }

  /** The turn of the loop at a closed brace. */
  method BindField(token: string, b: string, vars: seq<string>) returns (r: Result)
    ensures r == Bound(token, b, vars)
  {
    var field, template := TrimSpace(token[..IndexOf(token, '=')]), Template(token);
    if '.' in field {
      return Err(NestedField);
    }
    if field == [] {
      return Err(InvalidTemplate);
    }
    var marker := ':';
    if '/' in template || HasDoubleStar(template) {
      marker := '*';
    }
    r := Ok(b + ([marker] + field), vars + [field]);
  }

  /** One turn of the loop: the next index, and the error or what is written so far. */
  method Turn(path: string, i: nat, b: string, vars: seq<string>) returns (j: nat, r: Result)
    requires i < |path|
    ensures r.Err? ==> Translate(path[i..]) == r
    ensures r.Ok? ==>
      i < j <= |path| && Join(b, vars, Translate(path[i..])) == Join(r.path, r.vars, Translate(path[j..]))
  {
    if path[i] != '{' {
      AtChar(path, i, b, vars);
      return i + 1, Ok(b + [path[i]], vars);
    }
    var end := i + IndexOf(path[i..], '}');
    if end == |path| {
      AtOpenBrace(path, i);
      return end, Err(InvalidTemplate);
    }
    AtBrace(path, i, end, b, vars);
    j := end + 1;
    r := BindField(path[i + 1..end], b, vars);
  }

  method ToGinPath(path: string) returns (r: Result)
    ensures r == Translate(path)
  {
    var b: string, vars: seq<string>, i := [], [], 0;
    ghost var whole := Translate(path);
    assert path[0..] == path;
    JoinNothing(whole);
    while i < |path|
      invariant 0 <= i <= |path|
      invariant whole == Join(b, vars, Translate(path[i..]))
    {
      var j, turn := Turn(path, i, b, vars);
      if turn.Err? {
        return turn;
      }
      b, vars, i := turn.path, turn.vars, j;
    }
    AtEnd(path, b, vars);
    r := Ok(b, vars);
  }

  lemma AtEnd(path: string, b: string, vars: seq<string>)
    ensures Join(b, vars, Translate(path[|path|..])) == Ok(b, vars)
  {
    assert path[|path|..] == [];
    assert b + [] == b && vars + [] == vars;
  }

  // ---------- concatenation ----------

  lemma IndexInPrefix(a: string, b: string, c: char)
    requires IndexOf(a, c) < |a|
    ensures IndexOf(a + b, c) == IndexOf(a, c)
  {
    var i := IndexOf(a, c);
    assert (a + b)[..i] == a[..i];
    IndexIsFirst(a + b, c, i);
  }

  lemma UnfoldChar(path: string)
    requires path != [] && path[0] != '{'
    ensures Translate(path) == Join([path[0]], [], Translate(path[1..]))
  {
  }

  lemma TailOfSum(a: string, b: string)
    requires a != []
    ensures a + b != [] && (a + b)[0] == a[0] && (a + b)[1..] == a[1..] + b
  {
  }

  lemma JoinOver(out: string, vars: seq<string>, rest: Result, last: Result)
    requires rest.Ok?
    ensures var first := Join(out, vars, rest);
      Join(out, vars, Join(rest.path, rest.vars, last)) == Join(first.path, first.vars, last)
  {
    JoinJoin(out, vars, rest.path, rest.vars, last);
  }

  /** The result for `a + b` is that for `a` continued by that for `b`. */
  predicate Appends(a: string, b: string) {
    Translate(a).Ok? && Translate(a + b) == Join(Translate(a).path, Translate(a).vars, Translate(b))
  }

  lemma AppendAtChar(a: string, b: string)
    requires a != [] && a[0] != '{' && Appends(a[1..], b)
    ensures Appends(a, b)
  {
    UnfoldChar(a);
    TailOfSum(a, b);
    UnfoldChar(a + b);
    JoinOver([a[0]], [], Translate(a[1..]), Translate(b));
  }

  lemma BraceInPrefix(a: string, b: string)
    requires a != [] && a[0] == '{' && IndexOf(a, '}') < |a|
    ensures var end := IndexOf(a, '}');
      IndexOf(a + b, '}') == end && (a + b)[1..end] == a[1..end] && (a + b)[end + 1..] == a[end + 1..] + b
  {
    IndexInPrefix(a, b, '}');
  }

  lemma UnfoldBrace(path: string, end: nat)
    requires path != [] && path[0] == '{' && end == IndexOf(path, '}') < |path|
    requires FieldError(path[1..end]).None?
    ensures var token := path[1..end];
      Translate(path) == Join([Marker(token)] + FieldName(token), [FieldName(token)], Translate(path[end + 1..]))
  {
  }

  lemma AppendAtBrace(a: string, b: string)
    requires a != [] && a[0] == '{' && IndexOf(a, '}') < |a| && Appends(a[IndexOf(a, '}') + 1..], b)
    requires FieldError(a[1..IndexOf(a, '}')]).None?
    ensures Appends(a, b)
  {
    var end := IndexOf(a, '}');
    var token := a[1..end];
    UnfoldBrace(a, end);
    TailOfSum(a, b);
    BraceInPrefix(a, b);
    UnfoldBrace(a + b, end);
    JoinOver([Marker(token)] + FieldName(token), [FieldName(token)], Translate(a[end + 1..]), Translate(b));
  }

  lemma OkAtChar(path: string)
    requires path != [] && path[0] != '{' && Translate(path).Ok?
    ensures Translate(path[1..]).Ok?
  {
  }

  lemma AnyBrace(path: string)
    requires path != [] && path[0] == '{'
    ensures var end := IndexOf(path, '}');
      Translate(path) ==
        if end == |path| then Err(InvalidTemplate)
        else match Bound(path[1..end], [], [])
             case Err(e) => Err(e)
             case Ok(out, vars) => Join(out, vars, Translate(path[end + 1..]))
  {
    var end := IndexOf(path, '}');
    if end < |path| {
      var token := path[1..end];
      assert [] + ([Marker(token)] + FieldName(token)) == [Marker(token)] + FieldName(token);
      assert [] + [FieldName(token)] == [FieldName(token)];
    }
  }

  lemma OkAtBrace(path: string)
    requires path != [] && path[0] == '{' && Translate(path).Ok?
    ensures var end := IndexOf(path, '}');
      end < |path| && FieldError(path[1..end]).None? && Translate(path[end + 1..]).Ok?
  {
    AnyBrace(path);
  }

  lemma NothingAppends(b: string)
    ensures Appends([], b)
  {
    assert [] + b == b;
    JoinNothing(Translate(b));
  }

  lemma {:induction false} AllAppend(a: string, b: string)
    requires Translate(a).Ok?
    ensures Appends(a, b)
    decreases |a|
  {
    if a == [] {
      NothingAppends(b);
    } else if a[0] != '{' {
      OkAtChar(a);
      AllAppend(a[1..], b);
      AppendAtChar(a, b);
    } else {
      OkAtBrace(a);
      AllAppend(a[IndexOf(a, '}') + 1..], b);
      AppendAtBrace(a, b);
    }
  }

  /** If a path can be translated, it can be continued by any other: the results are
      concatenated piece by piece, and the second path's error is the error. */
  lemma TranslateAppend(a: string, b: string)
    requires Translate(a).Ok?
    ensures Translate(a + b) == Join(Translate(a).path, Translate(a).vars, Translate(b))
  {
    AllAppend(a, b);
  }

  // ---------- the grammar of templates ----------

  predicate AllSpace(s: string) {
    forall c :: c in s ==> IsSpace(c)
  }

  /** Neither starts nor ends with space. */
  predicate Tight(s: string) {
    s != [] ==> !IsSpace(s[0]) && !IsSpace(s[|s| - 1])
  }

  predicate Multi(template: string) {
    '/' in template || exists i :: 0 <= i < |template| - 1 && template[i] == template[i + 1] == '*'
  }

  /** A character other than an opening brace, or a braced field: a name, perhaps with
      space around it, and perhaps '=' and a template. */
  datatype Segment =
    | Char(c: char)
    | Field(left: string, name: string, right: string, template: Option<string>)
  {
    predicate WellFormed() {
      match this
      case Char(c) => c != '{'
      case Field(left, name, right, template) =>
        && AllSpace(left) && AllSpace(right) && Tight(name) && name != []
        && '.' !in name && '=' !in name && '}' !in name
        && (template.Some? ==> '}' !in template.value)
    }

    function Token(): string
      requires Field?
    {
      left + name + right + if template.Some? then ['='] + template.value else []
    }

    function Source(): string {
      match this
      case Char(c) => [c]
      case Field(_, _, _, _) => ['{'] + Token() + ['}']
    }

    /** ':' and the name, or '*' and the name if the template spans several segments. */
    function Output(): string {
      match this
      case Char(c) => [c]
      case Field(_, name, _, template) => [if template.Some? && Multi(template.value) then '*' else ':'] + name
    }

    function Vars(): seq<string> {
      match this
      case Char(_) => []
      case Field(_, name, _, _) => [name]
    }
  }

  lemma {:induction false} TrimLeftOf(left: string, s: string)
    requires AllSpace(left) && (s != [] ==> !IsSpace(s[0]))
    ensures TrimSpaceLeft(left + s) == s
    decreases |left|
  {
    if left == [] {
      assert left + s == s;
    } else {
      assert (left + s)[1..] == left[1..] + s && left[0] in left;
      TrimLeftOf(left[1..], s);
    }
  }

  lemma {:induction false} TrimRightOf(s: string, right: string)
    requires AllSpace(right) && (s != [] ==> !IsSpace(s[|s| - 1]))
    ensures TrimSpaceRight(s + right) == s
    decreases |right|
  {
    if right == [] {
      assert s + right == s;
    } else {
      var n := |right| - 1;
      assert (s + right)[..|s + right| - 1] == s + right[..n] && right[n] in right;
      TrimRightOf(s, right[..n]);
    }
  }

  lemma TrimOf(left: string, s: string, right: string)
    requires AllSpace(left) && AllSpace(right) && Tight(s) && s != []
    ensures TrimSpace(left + s + right) == s
  {
    assert left + s + right == left + (s + right);
    TrimLeftOf(left, s + right);
    TrimRightOf(s, right);
  }

  lemma {:induction false} LeftSpace(s: string) returns (left: string)
    ensures s == left + TrimSpaceLeft(s) && AllSpace(left)
    ensures TrimSpaceLeft(s) != [] ==> !IsSpace(TrimSpaceLeft(s)[0])
    decreases |s|
  {
    left := [];
    if s != [] && IsSpace(s[0]) {
      var more := LeftSpace(s[1..]);
      left := [s[0]] + more;
    }
  }

  lemma {:induction false} RightSpace(s: string) returns (right: string)
    ensures s == TrimSpaceRight(s) + right && AllSpace(right)
    ensures TrimSpaceRight(s) != [] ==> !IsSpace(TrimSpaceRight(s)[|TrimSpaceRight(s)| - 1])
    decreases |s|
  {
    right := [];
    if s != [] && IsSpace(s[|s| - 1]) {
      var more := RightSpace(s[..|s| - 1]);
      right := more + [s[|s| - 1]];
    }
  }

  /** Trimming takes off space at both ends and nothing else. */
  lemma TrimParts(s: string) returns (left: string, right: string)
    ensures s == left + TrimSpace(s) + right && AllSpace(left) && AllSpace(right) && Tight(TrimSpace(s))
  {
    left := LeftSpace(s);
    var t := TrimSpaceLeft(s);
    right := RightSpace(t);
    assert t == TrimSpaceRight(t) + right;
    if TrimSpaceRight(t) != [] {
      assert t[0] == TrimSpaceRight(t)[0];
    }
    assert left + (TrimSpaceRight(t) + right) == left + TrimSpaceRight(t) + right;
  }

  /** The part before a first '='. */
  lemma FieldPart(seg: Segment, f: string)
    requires seg.Field? && seg.WellFormed() && f == seg.left + seg.name + seg.right
    ensures '=' !in f && '}' !in f && f <= seg.Token() && IndexOf(seg.Token(), '=') == |f|
  {
    assert forall c :: c in f ==> IsSpace(c) || c in seg.name;
    assert seg.Token()[..|f|] == f;
    IndexIsFirst(seg.Token(), '=', |f|);
  }

  lemma TokenField(seg: Segment)
    requires seg.Field? && seg.WellFormed()
    ensures FieldName(seg.Token()) == seg.name && FieldError(seg.Token()).None?
    ensures Template(seg.Token()) == if seg.template.Some? then seg.template.value else []
    ensures '}' !in seg.Token() && [Marker(seg.Token())] + seg.name == seg.Output()
  {
    var token, f := seg.Token(), seg.left + seg.name + seg.right;
    FieldPart(seg, f);
    TrimOf(seg.left, seg.name, seg.right);
    if seg.template.Some? {
      assert token[|f| + 1..] == seg.template.value;
    }
  }

  /** The braced token is a field of the grammar. */
  lemma TokenParts(token: string) returns (seg: Segment)
    requires '}' !in token && FieldError(token).None?
    ensures seg.Field? && seg.WellFormed() && seg.Token() == token
  {
    var i := IndexOf(token, '=');
    var left, right := TrimParts(token[..i]);
    var template := if i < |token| then Some(token[i + 1..]) else None;
    seg := Field(left, FieldName(token), right, template);
    assert forall c :: c in seg.name ==> c in token[..i];
    assert if i < |token| then token == token[..i] + (['='] + token[i + 1..]) else token == token[..i];
  }

  predicate AllWellFormed(segs: seq<Segment>) {
    forall i :: 0 <= i < |segs| ==> segs[i].WellFormed()
  }

  function Source(segs: seq<Segment>): string {
    if segs == [] then [] else segs[0].Source() + Source(segs[1..])
  }

  function Output(segs: seq<Segment>): string {
    if segs == [] then [] else segs[0].Output() + Output(segs[1..])
  }

  /** The field of each braced segment, once and in order. */
  function Vars(segs: seq<Segment>): seq<string> {
    if segs == [] then [] else segs[0].Vars() + Vars(segs[1..])
  }

  lemma TranslateSegment(seg: Segment, rest: string)
    requires seg.WellFormed()
    ensures Translate(seg.Source() + rest) == Join(seg.Output(), seg.Vars(), Translate(rest))
  {
    var path := seg.Source() + rest;
    match seg
    case Char(c) => assert path[1..] == rest;
    case Field(_, _, _, _) =>
      var token := seg.Token();
      TokenField(seg);
      BraceClosed(path, token, rest);
      UnfoldBrace(path, |token| + 1);
  }

  lemma BraceClosed(path: string, token: string, rest: string)
    requires path == ['{'] + token + ['}'] + rest && '}' !in token
    ensures var end := |token| + 1;
      IndexOf(path, '}') == end < |path| && path[1..end] == token && path[end + 1..] == rest
  {
    var end := |token| + 1;
    assert path[..end] == ['{'] + token;
    IndexIsFirst(path, '}', end);
  }

  /** Every template of the grammar, whatever follows it. */
  lemma {:induction false} TranslateSource(segs: seq<Segment>, rest: string)
    requires AllWellFormed(segs)
    ensures Translate(Source(segs) + rest) == Join(Output(segs), Vars(segs), Translate(rest))
    decreases |segs|
  {
    if segs == [] {
      assert Source(segs) + rest == rest;
      JoinNothing(Translate(rest));
    } else {
      var tail := Source(segs[1..]) + rest;
      assert Source(segs) + rest == segs[0].Source() + tail;
      TranslateSegment(segs[0], tail);
      TranslateSource(segs[1..], rest);
      JoinJoin(segs[0].Output(), segs[0].Vars(), Output(segs[1..]), Vars(segs[1..]), Translate(rest));
    }
  }

  /** What makes a translation fail: a brace that is never closed, or a field that is
      dotted, or empty but for space. `f` is what is before a first '='. */
  ghost predicate Fails(tail: string, e: Error) {
    tail != [] && tail[0] == '{' && if '}' !in tail then e == InvalidTemplate else FailsAtField(tail, e)
  }

  ghost predicate FailsAtField(tail: string, e: Error) {
    exists f, more, rest ::
      && tail == ['{'] + (f + more) + ['}'] + rest && '}' !in f + more
      && '=' !in f && (more != [] ==> more[0] == '=')
      && BadField(f, e)
  }

  predicate BadField(f: string, e: Error) {
    if '.' in f then e == NestedField else AllSpace(f) && e == InvalidTemplate
  }

  lemma BadFieldIff(token: string, f: string, more: string, e: Error)
    requires token == f + more && '=' !in f && (more != [] ==> more[0] == '=')
    ensures FieldError(token) == Some(e) <==> BadField(f, e)
  {
    assert token[..|f|] == f;
    IndexIsFirst(token, '=', |f|);
    var left, right := TrimParts(f);
    assert '.' in f <==> '.' in TrimSpace(f);
    assert AllSpace(f) <==> TrimSpace(f) == [] by {
      if TrimSpace(f) != [] { assert TrimSpace(f)[0] in f; }
      if TrimSpace(f) == [] { assert f == left + right; }
    }
  }

  lemma FailingField(tail: string, token: string, rest: string, e: Error)
    requires tail == ['{'] + token + ['}'] + rest && '}' !in token && FieldError(token) == Some(e)
    ensures FailsAtField(tail, e)
  {
    var i := IndexOf(token, '=');
    var f, more := token[..i], token[i..];
    assert f + more == token;
    BadFieldIff(token, f, more, e);
  }

  lemma Pieces(s: string, end: nat)
    requires 1 <= end < |s|
    ensures s == [s[0]] + s[1..end] + [s[end]] + s[end + 1..]
  {
  }

  lemma NotWithin(s: string, end: nat, c: char)
    requires 1 <= end <= |s| && c !in s[..end]
    ensures c !in s[1..end]
  {
    forall k | 0 <= k < end - 1 ensures s[1..end][k] != c {
      assert s[..end][k + 1] == s[k + 1];
    }
  }

  lemma SplitAtBrace(tail: string)
    requires tail != [] && tail[0] == '{' && IndexOf(tail, '}') < |tail|
    ensures var end := IndexOf(tail, '}');
      tail == ['{'] + tail[1..end] + ['}'] + tail[end + 1..] && '}' !in tail[1..end] && '}' in tail
  {
    Pieces(tail, IndexOf(tail, '}'));
    NotWithin(tail, IndexOf(tail, '}'), '}');
  }

  lemma FailingBrace(tail: string, e: Error)
    requires tail != [] && tail[0] == '{'
    requires var end := IndexOf(tail, '}');
      if end == |tail| then e == InvalidTemplate else FieldError(tail[1..end]) == Some(e)
    ensures Fails(tail, e)
  {
    var end := IndexOf(tail, '}');
    if end < |tail| {
      SplitAtBrace(tail);
      FailingField(tail, tail[1..end], tail[end + 1..], e);
    } else {
      assert tail[..end] == tail;
      assert '}' !in tail;
    }
  }

  lemma FailsTranslates(tail: string, e: Error)
    requires Fails(tail, e)
    ensures Translate(tail) == Err(e)
  {
    if '}' in tail {
      var f, more, rest :| tail == ['{'] + (f + more) + ['}'] + rest && '}' !in f + more
        && '=' !in f && (more != [] ==> more[0] == '=') && BadField(f, e);
      BraceClosed(tail, f + more, rest);
      BadFieldIff(f + more, f, more, e);
    } else {
      IndexIsFirst(tail, '}', |tail|);
    }
  }

  /** Every path is a template of the grammar, followed by nothing if it can be
      translated, and by the place of the error if not. */
  lemma {:induction false} Parse(path: string) returns (segs: seq<Segment>, tail: string)
    ensures AllWellFormed(segs) && path == Source(segs) + tail
    ensures match Translate(path)
            case Ok(_, _) => tail == []
            case Err(e) => Fails(tail, e)
    decreases |path|
  {
    if path == [] {
      segs, tail := [], [];
    } else if path[0] == '{' && (IndexOf(path, '}') == |path| || FieldError(path[1..IndexOf(path, '}')]).Some?) {
      segs, tail := [], path;
      assert path == Source(segs) + tail;
      FailingBrace(path, Translate(path).error);
    } else {
      var seg, rest := FirstSegment(path);
      TranslateSegment(seg, rest);
      var more;
      more, tail := Parse(rest);
      segs := [seg] + more;
      SourceCons(seg, more, tail);
    }
  }

  lemma FirstSegment(path: string) returns (seg: Segment, rest: string)
    requires path != []
    requires path[0] == '{' ==> IndexOf(path, '}') < |path| && FieldError(path[1..IndexOf(path, '}')]).None?
    ensures seg.WellFormed() && path == seg.Source() + rest && |rest| < |path|
  {
    if path[0] != '{' {
      seg, rest := Char(path[0]), path[1..];
    } else {
      var end := IndexOf(path, '}');
      var token := path[1..end];
      SplitAtBrace(path);
      seg := TokenParts(token);
      rest := path[end + 1..];
    }
  }

  lemma SourceCons(seg: Segment, more: seq<Segment>, tail: string)
    ensures Source([seg] + more) + tail == seg.Source() + (Source(more) + tail)
    ensures seg.WellFormed() && AllWellFormed(more) ==> AllWellFormed([seg] + more)
  {
    assert ([seg] + more)[1..] == more;
  }

  /** The failures: a path is refused with `e` exactly if it is a template of the
      grammar followed by something that fails with `e`. */
  lemma FailsExactly(path: string, e: Error)
    ensures Translate(path) == Err(e) <==>
      exists segs, tail :: AllWellFormed(segs) && path == Source(segs) + tail && Fails(tail, e)
  {
    var segs, tail := Parse(path);
    forall segs, tail | AllWellFormed(segs) && path == Source(segs) + tail && Fails(tail, e)
      ensures Translate(path) == Err(e)
    {
      TranslateSource(segs, tail);
      FailsTranslates(tail, e);
    }
  }

  /** The successes: a path translates to exactly the output and the fields of the
      template it is the source of. */
  lemma SucceedsExactly(path: string, out: string, vars: seq<string>)
    ensures Translate(path) == Ok(out, vars) <==>
      exists segs :: AllWellFormed(segs) && path == Source(segs) && out == Output(segs) && vars == Vars(segs)
  {
    if Translate(path) == Ok(out, vars) {
      var segs, tail := Parse(path);
      assert path == Source(segs);
      TranslateSource(segs, []);
      assert Source(segs) + [] == path;
      assert out == Output(segs) && vars == Vars(segs);
    }
    forall segs | AllWellFormed(segs) && path == Source(segs) && out == Output(segs) && vars == Vars(segs)
      ensures Translate(path) == Ok(out, vars)
    {
      TranslateSource(segs, []);
      assert Source(segs) + [] == path;
    }
  }
}

/**
 * The synthetic child template for a file whose metadata names a parent
 * template: `{% extends "T" %}{% block content %}BODY{% endblock %}`.
 * `Unwrap` reads that shape back; the two are inverse for template names
 * without a double quote, which the plugin does not escape.
 */
module TemplateWrapper {
  import opened Wrappers
  import opened Strings

  const ExtendsOpen := "{% extends \""
  const ExtendsClose := "\" %}{% block content %}"
  const BlockClose := "{% endblock %}"

  /** Index of the first occurrence of `c` in `s`, or -1. */
  function IndexOf(s: string, c: char): (i: int)
    ensures -1 <= i < |s|
    ensures i >= 0 ==> s[i] == c
    ensures forall j :: 0 <= j < |s| && (i < 0 || j < i) ==> s[j] != c
    decreases |s|
  {
    if |s| == 0 then -1
    else if s[0] == c then 0
    else
      var k := IndexOf(s[1..], c);
      if k < 0 then -1 else k + 1
  }

  /** The text between `close` and `end` when `tail` is exactly `close`, some text, and `end`. */
  function Between(tail: string, close: string, end: string): Option<string> {
    if |tail| >= |close| + |end| && StartsWith(tail, close) && EndsWith(tail, end)
    then Some(tail[|close|..|tail| - |end|])
    else None
  }

  /**
   * Recognise `open`, a name up to the first double quote, `close` (which
   * begins with that quote), a body, and `end`.
   */
  function UnwrapBetween(src: string, open: string, close: string, end: string): Option<(string, string)> {
    if !StartsWith(src, open) then None
    else
      var rest := src[|open|..];
      var q := IndexOf(rest, '"');
      if q < 0 then None
      else
        match Between(rest[q..], close, end)
        case None => None
        case Some(body) => Some((rest[..q], body))
  }

  /** Recognise a wrapped source and return the parent template name and the body. */
  function Unwrap(src: string): Option<(string, string)> {
    UnwrapBetween(src, ExtendsOpen, ExtendsClose, BlockClose)
  }

  /** The wrapped source for parent template `template` and file body `body`. */
  function WrapSource(template: string, body: string): (src: string)
    ensures StartsWith(src, ExtendsOpen + template + ExtendsClose)
    ensures EndsWith(src, body + BlockClose)
    ensures |src| == |ExtendsOpen| + |template| + |ExtendsClose| + |body| + |BlockClose|
    ensures '"' !in template ==> Unwrap(src) == Some((template, body))
  {
    assert '"' !in template ==>
             Unwrap(ExtendsOpen + template + ExtendsClose + body + BlockClose) == Some((template, body)) by {
      if '"' !in template {
        UnwrapBetweenOfWrap(ExtendsOpen, template, ExtendsClose, body, BlockClose);
      }
    }
    ExtendsOpen + template + ExtendsClose + body + BlockClose
  }

  lemma UnwrapBetweenOfWrap(open: string, name: string, close: string, body: string, end: string)
    requires '"' !in name && |close| > 0 && close[0] == '"'
    ensures UnwrapBetween(open + name + close + body + end, open, close, end) == Some((name, body))
  {
    var src := open + name + close + body + end;
    var rest := name + close + body + end;
    var tail := close + body + end;
    assert src[|open|..] == rest;
    assert rest[|name|] == '"';
    assert IndexOf(rest, '"') == |name|;
    assert rest[|name|..] == tail;
    assert rest[..|name|] == name;
    assert Between(tail, close, end) == Some(body) by {
      assert tail[..|close|] == close;
      assert tail[|tail| - |end|..] == end;
      assert tail[|close|..|tail| - |end|] == body;
    }
  }

  lemma WrapOfUnwrapBetween(src: string, open: string, close: string, end: string, name: string, body: string)
    requires UnwrapBetween(src, open, close, end) == Some((name, body))
    ensures src == open + name + close + body + end
    ensures '"' !in name
  {
    PartsOfUnwrap(src, open, close, end, name, body);
    var tail := src[|open|..][|name|..];
    ShapeOfBetween(tail, close, end, body);
    Assembled(src, open, name, tail);
    Regrouped(open, name, close, body, end);
  }

  lemma Regrouped(a: string, b: string, c: string, d: string, e: string)
    ensures a + b + (c + d + e) == a + b + c + d + e
  {
  }

  lemma PartsOfUnwrap(src: string, open: string, close: string, end: string, name: string, body: string)
    requires UnwrapBetween(src, open, close, end) == Some((name, body))
    ensures StartsWith(src, open) && |name| <= |src| - |open|
    ensures src[|open|..][..|name|] == name
    ensures Between(src[|open|..][|name|..], close, end) == Some(body)
    ensures '"' !in name
  {
    var rest := src[|open|..];
    var q := IndexOf(rest, '"');
    assert q >= 0 && q == |name|;
  }

  lemma ShapeOfBetween(tail: string, close: string, end: string, body: string)
    requires Between(tail, close, end) == Some(body)
    ensures tail == close + body + end
  {
    assert tail == tail[..|close|] + tail[|close|..|tail| - |end|] + tail[|tail| - |end|..];
  }

  lemma Assembled(src: string, open: string, name: string, tail: string)
    requires StartsWith(src, open) && |name| <= |src| - |open|
    requires src[|open|..][..|name|] == name && src[|open|..][|name|..] == tail
    ensures src == open + name + tail
  {
    assert src == src[..|open|] + src[|open|..];
    assert src[|open|..] == name + tail;
  }

  /**
   * A wrapped source extends exactly `template` and carries `body` whole as
   * its content block, provided the name holds no double quote.
   */
  lemma UnwrapOfWrap(template: string, body: string)
    requires '"' !in template
    ensures Unwrap(WrapSource(template, body)) == Some((template, body))
  {
    UnwrapBetweenOfWrap(ExtendsOpen, template, ExtendsClose, body, BlockClose);
  }

  /** Whatever `Unwrap` accepts is exactly the wrapping of what it returns. */
  lemma UnwrapIsWrapped(src: string, template: string, body: string)
    requires Unwrap(src) == Some((template, body))
    ensures src == WrapSource(template, body)
    ensures '"' !in template
  {
    WrapOfUnwrapBetween(src, ExtendsOpen, ExtendsClose, BlockClose, template, body);
  }
}

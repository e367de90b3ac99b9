/**
 * Python's `str.format(**bindings)` restricted to what the templates use:
 * literal text, the escapes `{{` and `}}`, and fields `{name}` looked up by
 * keyword. Conversions (`!r`), format specifications (`:>8`), indexing and
 * attribute access are recognised and reported as unsupported.
 */
module PyFormat {
  import opened Wrappers

  /** The values `format_file` is called with: `str | bool | int`. */
  datatype Value = Str(s: string) | Bool(b: bool) | Int(i: int)

  /** Why `str.format` raises. */
  datatype FormatError =
    | SingleOpen                  // ValueError: Single '{' encountered in format string
    | SingleClose                 // ValueError: Single '}' encountered in format string
    | UnclosedField               // ValueError: expected '}' before end of string
    | BraceInField                // ValueError: unexpected '{' in field name
    | Unsupported(field: string)  // conversion, format spec, index or attribute: outside this model
    | Positional(field: string)   // IndexError: auto-numbered or numbered field, no positional arguments
    | MissingKey(key: string)     // KeyError: no binding for the field name

  type Bindings = map<string, Value>

  /** `str(v)`, which is what `format(v, "")` produces for these three types. */
  function ToStr(v: Value): string
  {
    match v
    case Str(s) => s
    case Bool(b) => if b then "True" else "False"
    case Int(i) => if i < 0 then "-" + Digits(-i) else Digits(i)
  }

  function Digits(n: nat): (r: string)
    ensures |r| >= 1
    ensures forall i :: 0 <= i < |r| ==> '0' <= r[i] <= '9'
  {
    if n < 10 then [Digit(n)] else Digits(n / 10) + [Digit(n % 10)]
  }

  function Digit(d: nat): (c: char)
    requires d < 10
    ensures '0' <= c <= '9'
  {
    ('0' as int + d) as char
  }

  /** Characters that end a field name. */
  predicate IsFieldStop(c: char) { c in "{}[.!:" }

  predicate IsDigitChar(c: char) { '0' <= c <= '9' }

  predicate AllDigits(s: string) { forall i :: 0 <= i < |s| ==> IsDigitChar(s[i]) }

  /** Length of the field name at the start of `s`: everything before the first stop character. */
  function FieldLength(s: string): (n: nat)
    ensures n <= |s|
    ensures n < |s| ==> IsFieldStop(s[n])
    ensures forall i :: 0 <= i < n ==> !IsFieldStop(s[i])
  {
    if s == [] || IsFieldStop(s[0]) then 0 else 1 + FieldLength(s[1..])
  }

  /** Prepends literal output to a successful rendering; an error stays an error. */
  function Emit(x: string, r: Result<string, FormatError>): Result<string, FormatError>
  {
    if r.Success? then Success(x + r.value) else r
  }

  /** Looks a field name up the way `str.format` does with keyword arguments only. */
  function Lookup(name: string, b: Bindings): Result<string, FormatError>
  {
    if name == [] || AllDigits(name) then Failure(Positional(name))
    else if name !in b then Failure(MissingKey(name))
    else Success(ToStr(b[name]))
  }

  /** `text.format(**b)`, scanning left to right like CPython's MarkupIterator. */
  function Render(text: string, b: Bindings): Result<string, FormatError>
    decreases |text|
  {
    if text == [] then Success([])
    else if text[0] == '{' then
      if |text| == 1 then Failure(SingleOpen)
      else if text[1] == '{' then Emit("{", Render(text[2..], b))
      else
        var rest := text[1..];
        var n := FieldLength(rest);
        if n == |rest| then Failure(UnclosedField)
        else if rest[n] == '{' then Failure(BraceInField)
        else if rest[n] != '}' then Failure(Unsupported(rest[..n + 1]))
        else match Lookup(rest[..n], b)
          case Failure(e) => Failure(e)
          case Success(v) => Emit(v, Render(rest[n + 1..], b))
    else if text[0] == '}' then
      if |text| >= 2 && text[1] == '}' then Emit("}", Render(text[2..], b))
      else Failure(SingleClose)
    else Emit([text[0]], Render(text[1..], b))
  }

  /** The text with every brace doubled, so that formatting gives it back. */
  function Escape(s: string): (r: string)
    ensures |r| >= |s|
  {
    if s == [] then []
    else if s[0] == '{' || s[0] == '}' then [s[0], s[0]] + Escape(s[1..])
    else [s[0]] + Escape(s[1..])
  }

  // ---------------------------------------------------------------------
  // Properties
  // ---------------------------------------------------------------------

  /** Text without braces is reproduced byte for byte, whatever the bindings. */
  lemma {:induction false} RenderPlain(text: string, b: Bindings)
    requires '{' !in text && '}' !in text
    ensures Render(text, b) == Success(text)
    decreases |text|
  {
    if text != [] {
      RenderPlain(text[1..], b);
      assert [text[0]] + text[1..] == text;
    }
  }

  /** Escaping and then formatting is the identity: `{{` becomes `{` and `}}` becomes `}`. */
  lemma {:induction false} RenderEscape(s: string, b: Bindings)
    ensures Render(Escape(s), b) == Success(s)
    decreases |s|
  {
    if s != [] {
      RenderEscape(s[1..], b);
      var e := Escape(s);
      if s[0] == '{' || s[0] == '}' {
        assert e[2..] == Escape(s[1..]);
      } else {
        assert e[1..] == Escape(s[1..]);
      }
      assert [s[0]] + s[1..] == s;
    }
  }

  /** A field whose name is bound renders as `str` of its value. */
  lemma RenderField(name: string, rest: string, b: Bindings)
    requires name != [] && !AllDigits(name) && name in b
    requires forall i :: 0 <= i < |name| ==> !IsFieldStop(name[i])
    ensures Render("{" + name + "}" + rest, b) == Emit(ToStr(b[name]), Render(rest, b))
  {
    var text := "{" + name + "}" + rest;
    FieldOpen(name, rest);
    assert Lookup(name, b) == Success(ToStr(b[name]));
  }

  /** Unfolds `Render` at an opening brace followed by a well-formed field name. */
  lemma FieldOpen(name: string, rest: string)
    requires name != []
    requires forall i :: 0 <= i < |name| ==> !IsFieldStop(name[i])
    ensures var text := "{" + name + "}" + rest;
      && |text| >= 2 && text[0] == '{' && text[1] != '{'
      && FieldLength(text[1..]) == |name|
      && text[1..][|name|] == '}'
      && text[1..][..|name|] == name
      && text[1..][|name| + 1..] == rest
  {
    var text := "{" + name + "}" + rest;
    assert text[1] == name[0];
    assert !IsFieldStop(name[0]);
    var tail := text[1..];
    assert tail == name + ("}" + rest);
    FieldLengthOfName(name, "}" + rest);
    assert tail[..|name|] == name;
    assert tail[|name| + 1..] == rest;
  }

  lemma {:induction false} FieldLengthOfName(name: string, rest: string)
    requires forall i :: 0 <= i < |name| ==> !IsFieldStop(name[i])
    requires rest != [] && IsFieldStop(rest[0])
    ensures FieldLength(name + rest) == |name|
    decreases |name|
  {
    if name == [] {
      assert name + rest == rest;
    } else {
      assert (name + rest)[1..] == name[1..] + rest;
      FieldLengthOfName(name[1..], rest);
    }
  }

  /** A field whose name is not bound raises KeyError. */
  lemma RenderMissing(name: string, rest: string, b: Bindings)
    requires name != [] && !AllDigits(name) && name !in b
    requires forall i :: 0 <= i < |name| ==> !IsFieldStop(name[i])
    ensures Render("{" + name + "}" + rest, b) == Failure(MissingKey(name))
  {
    FieldOpen(name, rest);
    assert Lookup(name, b) == Failure(MissingKey(name));
  }

  lemma EmitEmit(x: string, y: string, r: Result<string, FormatError>)
    ensures Emit(x, Emit(y, r)) == Emit(x + y, r)
  {
    if r.Success? {
      assert x + (y + r.value) == (x + y) + r.value;
    }
  }

  /**
   * Formatting is compositional over a prefix that formats on its own:
   * the prefix's output is followed by whatever the rest produces,
   * including the rest's error.
   */
  lemma {:induction false} RenderConcat(a: string, c: string, b: Bindings)
    requires Render(a, b).Success?
    ensures Render(a + c, b) == Emit(Render(a, b).value, Render(c, b))
    decreases |a|
  {
    var t := a + c;
    if a == [] {
      assert t == c;
      if Render(c, b).Success? {
        assert [] + Render(c, b).value == Render(c, b).value;
      }
    } else if a[0] == '{' {
      assert a[1] != '{' ==> |a| >= 2;
      if a[1] == '{' {
        assert t[2..] == a[2..] + c;
        RenderConcat(a[2..], c, b);
        EmitEmit("{", Render(a[2..], b).value, Render(c, b));
      } else {
        RenderConcatField(a, c, b);
      }
    } else if a[0] == '}' {
      assert |a| >= 2 && a[1] == '}';
      assert t[2..] == a[2..] + c;
      RenderConcat(a[2..], c, b);
      EmitEmit("}", Render(a[2..], b).value, Render(c, b));
    } else {
      assert t[1..] == a[1..] + c;
      RenderConcat(a[1..], c, b);
      EmitEmit([a[0]], Render(a[1..], b).value, Render(c, b));
    }
  }

  lemma {:induction false} RenderConcatField(a: string, c: string, b: Bindings)
    requires Render(a, b).Success? && |a| >= 2 && a[0] == '{' && a[1] != '{'
    ensures Render(a + c, b) == Emit(Render(a, b).value, Render(c, b))
    decreases |a|, 0
  {
    var rest := a[1..];
    var n := FieldLength(rest);
    RenderAtField(a, b);
    var t := a + c;
    FieldLengthPrefix(rest, c);
    FieldConcat(a, c, n);
    RenderAtField(t, b);
    var v := Lookup(rest[..n], b).value;
    RenderConcat(rest[n + 1..], c, b);
    EmitEmit(v, Render(rest[n + 1..], b).value, Render(c, b));
  }

  lemma FieldConcat(a: string, c: string, n: nat)
    requires 1 <= |a| && n < |a| - 1
    ensures (a + c)[1..] == a[1..] + c
    ensures (a[1..] + c)[..n] == a[1..][..n] && (a[1..] + c)[n + 1..] == a[1..][n + 1..] + c
  {
  }

  /** One unfolding of `Render` at a field opening brace. */
  lemma RenderAtField(t: string, b: Bindings)
    requires |t| >= 2 && t[0] == '{' && t[1] != '{'
    ensures var n := FieldLength(t[1..]);
      Render(t, b).Success? ==> n < |t| - 1 && t[1..][n] == '}' && Lookup(t[1..][..n], b).Success?
    ensures var n := FieldLength(t[1..]);
      n < |t| - 1 && t[1..][n] == '}' && Lookup(t[1..][..n], b).Success? ==>
        Render(t, b) == Emit(Lookup(t[1..][..n], b).value, Render(t[1..][n + 1..], b))
  {
  }

  lemma {:induction false} FieldLengthPrefix(s: string, c: string)
    requires FieldLength(s) < |s|
    ensures FieldLength(s + c) == FieldLength(s)
    decreases |s|
  {
    if !IsFieldStop(s[0]) {
      assert (s + c)[1..] == s[1..] + c;
      FieldLengthPrefix(s[1..], c);
    }
  }

  /**
   * Unused bindings are ignored: a text that formats with some bindings
   * formats to the same output with any larger set of bindings.
   */
  lemma {:induction false} RenderMoreBindings(text: string, b: Bindings, more: Bindings)
    requires Render(text, b).Success?
    requires forall k :: k in b ==> k in more && more[k] == b[k]
    ensures Render(text, more) == Render(text, b)
    decreases |text|
  {
    if text != [] {
      if text[0] == '{' {
        if text[1] == '{' {
          RenderMoreBindings(text[2..], b, more);
        } else {
          var rest := text[1..];
          var n := FieldLength(rest);
          RenderMoreBindings(rest[n + 1..], b, more);
        }
      } else if text[0] == '}' {
        RenderMoreBindings(text[2..], b, more);
      } else {
        RenderMoreBindings(text[1..], b, more);
      }
    }
  }
}

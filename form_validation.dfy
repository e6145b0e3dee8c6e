/** The contact form's field rules (script.js): the submit-time check of the
    four required fields and the per-field check run when a control loses focus. */
module FormValidation {
  import opened JsText

  const MinNameLength := 3
  const MinPhoneLength := 8

  /** The name field: at least three characters once trimmed. */
  predicate NombreOk(v: string) {
    |Trim(v)| >= MinNameLength
  }

  /** `[\d\s\-\+\(\)]`: an ASCII digit, whitespace, `-`, `+`, `(` or `)`. */
  predicate IsPhoneChar(c: char) {
    ('0' <= c <= '9') || IsWhiteSpace(c) || c == '-' || c == '+' || c == '(' || c == ')'
  }

  /** `/^[\d\s\-\+\(\)]+$/`: one or more phone characters and nothing else. */
  predicate PhonePatternMatches(v: string) {
    |v| > 0 && forall i :: 0 <= i < |v| ==> IsPhoneChar(v[i])
  }

  /** The phone field: matches the pattern and is at least eight characters
      long, counted before trimming. */
  predicate TelefonoOk(v: string) {
    PhonePatternMatches(v) && |v| >= MinPhoneLength
  }

  /** The service-type select: any value but the empty string (no trimming). */
  predicate TipoOk(v: string) {
    v != ""
  }

  /** `[^\s@]`. */
  predicate IsEmailAtom(c: char) {
    !IsWhiteSpace(c) && c != '@'
  }

  /** `[^\s@]+`. */
  predicate EmailAtoms(s: string) {
    |s| > 0 && forall i :: 0 <= i < |s| ==> IsEmailAtom(s[i])
  }

  /** `v` is L + "@" + R + "." + S, the `@` at index `at` and the `.` at index
      `dot`, with L, R and S non-empty runs of `[^\s@]`. */
  predicate EmailSplit(v: string, at: int, dot: int) {
    && 0 <= at < dot < |v|
    && v[at] == '@' && v[dot] == '.'
    && EmailAtoms(v[..at]) && EmailAtoms(v[at + 1..dot]) && EmailAtoms(v[dot + 1..])
  }

  /** `/^[^\s@]+@[^\s@]+\.[^\s@]+$/`, read off the pattern. */
  ghost predicate EmailPatternMatches(v: string) {
    exists at, dot :: EmailSplit(v, at, dot)
  }

  /** Index of the first `c` in `s`, or `|s|` when `s` holds none. */
  function IndexOf(s: string, c: char): (k: nat)
    ensures k <= |s|
    ensures k < |s| ==> s[k] == c
    ensures forall i :: 0 <= i < k ==> s[i] != c
  {
    if s == [] then 0
    else if s[0] == c then 0
    else 1 + IndexOf(s[1..], c)
  }

  /** The index of a `c` with no `c` before it is what IndexOf finds. */
  lemma {:induction false} IndexOfFirst(s: string, c: char, k: nat)
    requires k < |s| && s[k] == c
    requires forall i :: 0 <= i < k ==> s[i] != c
    ensures IndexOf(s, c) == k
  {
    if k > 0 {
      IndexOfFirst(s[1..], c, k - 1);
    }
  }

  /** A `.` that is neither the first nor the last character. */
  predicate HasInnerDot(d: string) {
    |d| >= 3 && '.' in d[1..|d| - 1]
  }

  /** The email rule in words: no whitespace, exactly one `@` with something
      before it, and a domain holding a `.` that is neither its first nor its
      last character. */
  predicate EmailOk(v: string) {
    var at := IndexOf(v, '@');
    && NoWhiteSpace(v)
    && 0 < at < |v|
    && '@' !in v[at + 1..]
    && HasInnerDot(v[at + 1..])
  }

  /** Every value the rule in words accepts matches the regular expression. */
  lemma EmailOkMatchesPattern(v: string)
    requires EmailOk(v)
    ensures EmailPatternMatches(v)
  {
    var at := IndexOf(v, '@');
    var d := v[at + 1..];
    var k :| 1 <= k < |d| - 1 && d[k] == '.';
    var dot := at + 1 + k;
    assert v[at + 1..dot] == d[..k];
    assert v[dot + 1..] == d[k + 1..];
    forall i | 0 <= i < |d| ensures IsEmailAtom(d[i]) || d[i] == '.' {
      assert d[i] in v[at + 1..];
      assert d[i] == v[at + 1 + i];
    }
    assert EmailAtoms(v[..at]);
    assert EmailAtoms(v[at + 1..dot]);
    assert EmailAtoms(v[dot + 1..]);
    assert EmailSplit(v, at, dot);
  }

  /** `L@R.S` with L, R and S runs of `[^\s@]` passes the rule in words. */
  lemma AssembledEmailOk(l: string, r: string, s: string)
    requires EmailAtoms(l) && EmailAtoms(r) && EmailAtoms(s)
    ensures EmailOk(l + ['@'] + r + ['.'] + s)
  {
    var d := r + ['.'] + s;
    var v := l + ['@'] + d;
    forall i | 0 <= i < |l| ensures v[i] != '@' && !IsWhiteSpace(v[i]) {
      assert v[i] == l[i];
    }
    IndexOfFirst(v, '@', |l|);
    forall i | 0 <= i < |d| ensures d[i] != '@' && !IsWhiteSpace(d[i]) {
      if i < |r| { assert d[i] == r[i]; }
      else if i > |r| { assert d[i] == s[i - |r| - 1]; }
    }
    forall i | 0 <= i < |v| ensures !IsWhiteSpace(v[i]) {
      if i > |l| { assert v[i] == d[i - |l| - 1]; }
    }
    assert v[|l| + 1..] == d;
    assert d[1..|d| - 1][|r| - 1] == '.';
    assert l + ['@'] + r + ['.'] + s == v;
  }

  /** Every value the regular expression matches is accepted by the rule in words. */
  lemma PatternMatchIsEmailOk(v: string)
    requires EmailPatternMatches(v)
    ensures EmailOk(v)
  {
    var at, dot :| EmailSplit(v, at, dot);
    var l, r, s := v[..at], v[at + 1..dot], v[dot + 1..];
    assert v == l + ['@'] + r + ['.'] + s;
    AssembledEmailOk(l, r, s);
  }

  /** The rule in words and the regular expression accept the same values. */
  lemma EmailOkIffPattern(v: string)
    ensures EmailOk(v) <==> EmailPatternMatches(v)
  {
    if EmailOk(v) {
      EmailOkMatchesPattern(v);
    }
    if EmailPatternMatches(v) {
      PatternMatchIsEmailOk(v);
    }
  }

  /** The border colours the handlers write: `var(--color-border)`, `#c00` and
      `var(--color-accent)`. */
  datatype Border = ResetBorder | ErrorBorder | AccentBorder

  /** A form control: its current value and the colour of its border. */
  class Field {
    var value: string
    var border: Border

    constructor (value: string)
      ensures this.value == value && border == ResetBorder
    {
      this.value := value;
      border := ResetBorder;
    }
  }

  /** `validateForm()`: resets the four required fields, then checks each of
      them, marking every failing one, and reports whether all passed. */
  method ValidateForm(nombre: Field, telefono: Field, email: Field, tipo: Field) returns (isValid: bool)
    requires nombre != telefono && nombre != email && nombre != tipo
    requires telefono != email && telefono != tipo && email != tipo
    modifies nombre`border, telefono`border, email`border, tipo`border
    ensures isValid <==> NombreOk(nombre.value) && TelefonoOk(telefono.value)
                         && EmailPatternMatches(email.value) && TipoOk(tipo.value)
    ensures nombre.border == if NombreOk(nombre.value) then ResetBorder else ErrorBorder
    ensures telefono.border == if TelefonoOk(telefono.value) then ResetBorder else ErrorBorder
    ensures email.border == if EmailPatternMatches(email.value) then ResetBorder else ErrorBorder
    ensures tipo.border == if TipoOk(tipo.value) then ResetBorder else ErrorBorder
  {
    isValid := true;

    var fields := [nombre, telefono, email, tipo];
    for i := 0 to |fields|
      invariant forall k :: 0 <= k < i ==> fields[k].border == ResetBorder
    {
      fields[i].border := ResetBorder;
    }
    assert fields[0].border == ResetBorder && fields[1].border == ResetBorder;
    assert fields[2].border == ResetBorder && fields[3].border == ResetBorder;

    if |Trim(nombre.value)| < MinNameLength {
      nombre.border := ErrorBorder;
      isValid := false;
    }

    if !PhonePatternMatches(telefono.value) || |telefono.value| < MinPhoneLength {
      telefono.border := ErrorBorder;
      isValid := false;
    }

    EmailOkIffPattern(email.value);
    if !EmailOk(email.value) {
      email.border := ErrorBorder;
      isValid := false;
    }

    if tipo.value == "" {
      tipo.border := ErrorBorder;
      isValid := false;
    }
  }

  /** The `type` of a control, as far as the blur handler distinguishes it. */
  datatype InputKind = EmailInput | TelInput | OtherInput

  /** The test the blur handler applies to a non-blank control. */
  predicate BlurOk(kind: InputKind, v: string) {
    match kind
    case EmailInput => EmailOk(v)
    case TelInput => PhonePatternMatches(v) && |v| >= MinPhoneLength
    case OtherInput => |Trim(v)| >= MinNameLength
  }

  /** On blur the email, phone and name controls are judged by the same rules
      as on submit. */
  lemma BlurAgreesWithSubmit(v: string)
    ensures BlurOk(EmailInput, v) <==> EmailPatternMatches(v)
    ensures BlurOk(TelInput, v) <==> TelefonoOk(v)
    ensures BlurOk(OtherInput, v) <==> NombreOk(v)
  {
    EmailOkIffPattern(v);
  }

  /** The blur handler: a control whose trimmed value is blank keeps its
      border; any other turns accent when it passes and red when it fails. */
  method OnBlur(input: Field, kind: InputKind)
    modifies input`border
    ensures Trim(input.value) == [] ==> input.border == old(input.border)
    ensures Trim(input.value) != [] ==>
              input.border == if BlurOk(kind, input.value) then AccentBorder else ErrorBorder
  {
    if Trim(input.value) != "" {
      var ok;
      match kind {
        case EmailInput => ok := EmailOk(input.value);
        case TelInput => ok := PhonePatternMatches(input.value) && |input.value| >= MinPhoneLength;
        case OtherInput => ok := |Trim(input.value)| >= MinNameLength;
      }
      input.border := if ok then AccentBorder else ErrorBorder;
    }
  }

  /** The focus handler: the border turns accent. */
  method OnFocus(input: Field)
    modifies input`border
    ensures input.border == AccentBorder
  {
    input.border := AccentBorder;
  }

  /** The phone rule counts whitespace as a phone character and measures the
      untrimmed value, so a value of eight or more whitespace characters passes
      it, although the blur handler skips that same value as blank. */
  lemma BlankPhoneAccepted(v: string)
    requires |v| >= MinPhoneLength && AllWhiteSpace(v)
    ensures TelefonoOk(v) && Trim(v) == []
  {
    var _ := TrimShape(v);
  }
}

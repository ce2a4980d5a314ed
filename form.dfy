/**
 * The form record `formData` (seven string fields), the empty-field test the
 * submit handler applies to it, and the whitespace trimming the chat handler
 * applies to the question.
 */
module Form {

  /** The names of the seven inputs. */
  datatype Field = Nitrogen | Phosphorus | Potassium | Temperature | Humidity | Ph | Rainfall

  /** The keys of `formData` in the order they were declared, which is the order `Object.values` yields. */
  const Fields: seq<Field> := [Nitrogen, Phosphorus, Potassium, Temperature, Humidity, Ph, Rainfall]

  /** The raw text of every input, before parsing. */
  datatype FormData = FormData(
    nitrogen: string,
    phosphorus: string,
    potassium: string,
    temperature: string,
    humidity: string,
    ph: string,
    rainfall: string)
  {
    /** `formData[name]` */
    function Get(f: Field): string {
      match f
      case Nitrogen => nitrogen
      case Phosphorus => phosphorus
      case Potassium => potassium
      case Temperature => temperature
      case Humidity => humidity
      case Ph => ph
      case Rainfall => rainfall
    }

    /** `{ ...formData, [name]: value }`: the named field replaced, every other field kept. */
    function Set(f: Field, v: string): (d: FormData)
      ensures d.Get(f) == v
      ensures forall g :: g != f ==> d.Get(g) == Get(g)
    {
      match f
      case Nitrogen => this.(nitrogen := v)
      case Phosphorus => this.(phosphorus := v)
      case Potassium => this.(potassium := v)
      case Temperature => this.(temperature := v)
      case Humidity => this.(humidity := v)
      case Ph => this.(ph := v)
      case Rainfall => this.(rainfall := v)
    }

    /** `Object.values(formData)`: one value per field, in key order. */
    function Values(): (vs: seq<string>)
      ensures |vs| == |Fields|
      ensures forall i :: 0 <= i < |Fields| ==> vs[i] == Get(Fields[i])
    {
      [nitrogen, phosphorus, potassium, temperature, humidity, ph, rainfall]
    }
  }

  /** The initial form: every field empty. */
  const EmptyForm := FormData("", "", "", "", "", "", "")

  /** `vs.some(val => val === '')`, scanning from the left. */
  function SomeEmpty(vs: seq<string>): (b: bool)
    ensures b <==> exists i :: 0 <= i < |vs| && vs[i] == ""
  {
    if vs == [] then false
    else if vs[0] == "" then true
    else
      var rest := SomeEmpty(vs[1..]);
      assert forall i :: 1 <= i < |vs| ==> vs[i] == vs[1..][i - 1];
      rest
  }

  /** The submit handler's rejection test on the whole form. */
  predicate HasEmptyField(d: FormData) {
    SomeEmpty(d.Values())
  }

  /** The form is rejected exactly when one of its seven fields is the empty string. */
  lemma HasEmptyFieldIff(d: FormData)
    ensures HasEmptyField(d) <==> exists f :: d.Get(f) == ""
  {
    var vs := d.Values();
    if HasEmptyField(d) {
      var i :| 0 <= i < |vs| && vs[i] == "";
      assert d.Get(Fields[i]) == "";
    } else {
      forall f ensures d.Get(f) != "" {
        var i := match f
          case Nitrogen => 0
          case Phosphorus => 1
          case Potassium => 2
          case Temperature => 3
          case Humidity => 4
          case Ph => 5
          case Rainfall => 6;
        assert Fields[i] == f;
      }
    }
  }

  /** The freshly loaded form has empty fields, so it cannot be submitted as it is. */
  lemma EmptyFormRejected()
    ensures HasEmptyField(EmptyForm)
  {
  }

  // ---------------------------------------------------------------------
  // String.prototype.trim, as used by `!chatQuery.trim()`
  // ---------------------------------------------------------------------

  /** The characters JavaScript's `trim` removes: white space and line terminators. */
  predicate IsJsWhitespace(c: char) {
    c == '\t' || c == '\n' || c == '\U{B}' || c == '\U{C}' || c == '\r' || c == ' '
    || c == '\U{A0}' || c == '\U{1680}' || ('\U{2000}' <= c <= '\U{200A}')
    || c == '\U{2028}' || c == '\U{2029}' || c == '\U{202F}' || c == '\U{205F}'
    || c == '\U{3000}' || c == '\U{FEFF}'
  }

  /** Every character of `s` is white space (vacuously so for the empty string). */
  predicate IsBlank(s: string) {
    forall i :: 0 <= i < |s| ==> IsJsWhitespace(s[i])
  }

  /** `s` with its leading white space removed. */
  function TrimStart(s: string): (t: string)
    ensures |t| <= |s| && t == s[|s| - |t|..]
    ensures forall i :: 0 <= i < |s| - |t| ==> IsJsWhitespace(s[i])
    ensures t != [] ==> !IsJsWhitespace(t[0])
  {
    if s != [] && IsJsWhitespace(s[0]) then TrimStart(s[1..]) else s
  }

  /** `s` with its trailing white space removed. */
  function TrimEnd(s: string): (t: string)
    ensures |t| <= |s| && t == s[..|t|]
    ensures forall i :: |t| <= i < |s| ==> IsJsWhitespace(s[i])
    ensures t != [] ==> !IsJsWhitespace(t[|t| - 1])
  {
    if s != [] && IsJsWhitespace(s[|s| - 1]) then TrimEnd(s[..|s| - 1]) else s
  }

  /** `s.trim()` */
  function Trim(s: string): string {
    TrimEnd(TrimStart(s))
  }

  /** `!s.trim()` holds, that is the trimmed string is empty, exactly when `s` is all white space. */
  lemma TrimEmptyIffBlank(s: string)
    ensures Trim(s) == "" <==> IsBlank(s)
  {
  }
}

/**
 * The display formatters for Brazilian identifiers: `formatarCNPJ`,
 * `formatarTelefone` (three identical copies in the supplier, client list and
 * client detail screens) and `formatarCEP`. Each keeps only the digits,
 * chooses a layout by how many there are, and otherwise hands the input back.
 */
module Formatters {
  import opened Wrappers
  import opened Text

  /** In a layout mask '0' stands for one digit; any other character stands for itself. */
  predicate Fits(s: string, mask: string)
    decreases |s|
  {
    |s| == |mask| && (s == [] || (FitsChar(s[0], mask[0]) && Fits(s[1..], mask[1..])))
  }

  predicate FitsChar(c: char, m: char)
  {
    if m == '0' then IsDigit(c) else c == m
  }

  const Run2: string := "00"
  const Run3: string := "000"
  const Run4: string := "0000"
  const Run5: string := "00000"

  /** 00.000.000/0000-00 */
  const CnpjMask: string := Run2 + "." + Run3 + "." + Run3 + "/" + Run4 + "-" + Run2
  /** (00) 0000-0000 */
  const Phone10Mask: string := "(" + Run2 + ") " + Run4 + "-" + Run4
  /** (00) 00000-0000 */
  const Phone11Mask: string := "(" + Run2 + ") " + Run5 + "-" + Run4
  /** 0000-0000 */
  const Phone8Mask: string := Run4 + "-" + Run4
  /** 00000-0000 */
  const Phone9Mask: string := Run5 + "-" + Run4
  /** 00000-000 */
  const CepMask: string := Run5 + "-" + Run3

  /** `!x` for an optional string: null, undefined and "" are all falsy. */
  predicate Falsy(x: Option<string>)
  {
    x.None? || x.value == ""
  }

  // ---------------------------------------------------------------------
  // Layouts, written as the source slices the digit string

  function CnpjLayout(d: string): string
    requires |d| == 14
  {
    d[..2] + "." + d[2..5] + "." + d[5..8] + "/" + d[8..12] + "-" + d[12..]
  }

  function Phone10Layout(d: string): string
    requires |d| == 10
  {
    "(" + d[..2] + ") " + d[2..6] + "-" + d[6..10]
  }

  function Phone11Layout(d: string): string
    requires |d| == 11
  {
    "(" + d[..2] + ") " + d[2..7] + "-" + d[7..11]
  }

  function Phone8Layout(d: string): string
    requires |d| == 8
  {
    d[..4] + "-" + d[4..8]
  }

  function Phone9Layout(d: string): string
    requires |d| == 9
  {
    d[..5] + "-" + d[5..9]
  }

  function CepLayout(d: string): string
    requires |d| == 8
  {
    d[..5] + "-" + d[5..]
  }

  // ---------------------------------------------------------------------
  // The formatters

  /** `formatarCNPJ`. */
  function FormatCnpj(cnpj: string): (r: string)
    ensures cnpj == "" ==> r == "-"
    ensures cnpj != "" && |Digits(cnpj)| == 14 ==> Fits(r, CnpjMask) && Digits(r) == Digits(cnpj)
    ensures cnpj != "" && |Digits(cnpj)| != 14 ==> r == cnpj
  {
    if cnpj == "" then "-"
    else
      var d := Digits(cnpj);
      if |d| == 14 then CnpjLayoutFits(d); CnpjLayout(d) else cnpj
  }

  /** `formatarTelefone`. */
  function FormatPhone(telefone: Option<string>): (r: string)
    ensures Falsy(telefone) ==> r == "-"
    ensures !Falsy(telefone) && |Digits(telefone.value)| == 10 ==>
              Fits(r, Phone10Mask) && Digits(r) == Digits(telefone.value)
    ensures !Falsy(telefone) && |Digits(telefone.value)| == 11 ==>
              Fits(r, Phone11Mask) && Digits(r) == Digits(telefone.value)
    ensures !Falsy(telefone) && |Digits(telefone.value)| == 8 ==>
              Fits(r, Phone8Mask) && Digits(r) == Digits(telefone.value)
    ensures !Falsy(telefone) && |Digits(telefone.value)| == 9 ==>
              Fits(r, Phone9Mask) && Digits(r) == Digits(telefone.value)
    ensures !Falsy(telefone) && |Digits(telefone.value)| !in {8, 9, 10, 11} ==> r == telefone.value
  {
    if Falsy(telefone) then "-"
    else
      var d := Digits(telefone.value);
      if |d| == 10 then Phone10LayoutFits(d); Phone10Layout(d)
      else if |d| == 11 then Phone11LayoutFits(d); Phone11Layout(d)
      else if |d| == 8 then Phone8LayoutFits(d); Phone8Layout(d)
      else if |d| == 9 then Phone9LayoutFits(d); Phone9Layout(d)
      else telefone.value
  }

  /** `formatarCEP`. */
  function FormatCep(cep: Option<string>): (r: string)
    ensures Falsy(cep) ==> r == "-"
    ensures !Falsy(cep) && |Digits(cep.value)| == 8 ==> Fits(r, CepMask) && Digits(r) == Digits(cep.value)
    ensures !Falsy(cep) && |Digits(cep.value)| != 8 ==> r == cep.value
  {
    if Falsy(cep) then "-"
    else
      var d := Digits(cep.value);
      if |d| == 8 then CepLayoutFits(d); CepLayout(d) else cep.value
  }

  // ---------------------------------------------------------------------
  // Properties

  /**
   * A mask and the digit sequence pin a string down: two strings that fit the
   * same mask and carry the same digits are equal. So each formatter's
   * contract determines its result completely.
   */
  lemma {:induction false} FitsDigitsUnique(a: string, b: string, mask: string)
    requires Fits(a, mask) && Fits(b, mask)
    requires Digits(a) == Digits(b)
    ensures a == b
    decreases |mask|
  {
    if mask != [] {
      assert Digits(a) == (if IsDigit(a[0]) then [a[0]] else []) + Digits(a[1..]);
      assert Digits(b) == (if IsDigit(b[0]) then [b[0]] else []) + Digits(b[1..]);
      if mask[0] == '0' {
        assert IsDigit(a[0]) && IsDigit(b[0]);
        assert Digits(a)[0] == a[0] && Digits(b)[0] == b[0];
        assert Digits(a[1..]) == Digits(a)[1..];
        assert Digits(b[1..]) == Digits(b)[1..];
      } else {
        assert a[0] == mask[0] == b[0];
        if IsDigit(a[0]) {
          assert Digits(a[1..]) == Digits(a)[1..];
          assert Digits(b[1..]) == Digits(b)[1..];
        }
      }
      FitsDigitsUnique(a[1..], b[1..], mask[1..]);
      assert a == [a[0]] + a[1..];
      assert b == [b[0]] + b[1..];
    }
  }

  /** Formatting a CNPJ twice is formatting it once. */
  lemma FormatCnpjIdempotent(cnpj: string)
    ensures FormatCnpj(FormatCnpj(cnpj)) == FormatCnpj(cnpj)
  {
    if cnpj == "" {
      assert Digits("-") == [];
    }
  }

  /** Formatting a phone number twice is formatting it once, fallback included. */
  lemma FormatPhoneIdempotent(telefone: Option<string>)
    ensures FormatPhone(Some(FormatPhone(telefone))) == FormatPhone(telefone)
  {
    if Falsy(telefone) {
      assert Digits("-") == [];
    }
  }

  /** Formatting a CEP twice is formatting it once. */
  lemma FormatCepIdempotent(cep: Option<string>)
    ensures FormatCep(Some(FormatCep(cep))) == FormatCep(cep)
  {
    if Falsy(cep) {
      assert Digits("-") == [];
    }
  }

  /**
   * A formatted phone number read back by the formatter's own digit filter
   * gives the digits that went in: formatting loses no information.
   */
  lemma FormatPhoneKeepsDigits(telefone: Option<string>)
    requires !Falsy(telefone)
    ensures Digits(FormatPhone(telefone)) == Digits(telefone.value)
  {
  }

  // ---------------------------------------------------------------------
  // Layout lemmas

  lemma {:induction false} DigitRun(d: string, mask: string)
    requires AllDigits(d) && |d| == |mask|
    requires forall i :: 0 <= i < |mask| ==> mask[i] == '0'
    ensures Fits(d, mask) && Digits(d) == d
    decreases |d|
  {
    DigitsOfDigits(d);
    if d != [] {
      DigitRun(d[1..], mask[1..]);
    }
  }

  lemma {:induction false} Literal(p: string)
    requires NoDigits(p)
    ensures Fits(p, p) && Digits(p) == []
    decreases |p|
  {
    DigitsOfNoDigits(p);
    if p != [] {
      Literal(p[1..]);
    }
  }

  lemma {:induction false} Glue(a: string, ma: string, b: string, mb: string)
    requires Fits(a, ma) && Fits(b, mb)
    ensures Fits(a + b, ma + mb)
    ensures Digits(a + b) == Digits(a) + Digits(b)
    decreases |a|
  {
    DigitsConcat(a, b);
    if a == [] {
      assert a + b == b && ma + mb == mb;
    } else {
      Glue(a[1..], ma[1..], b, mb);
      assert (a + b)[0] == a[0] && (a + b)[1..] == a[1..] + b;
      assert (ma + mb)[0] == ma[0] && (ma + mb)[1..] == ma[1..] + mb;
    }
  }

  /** `a + sep + b` fits `ma + sep + mb` for a literal separator without digits. */
  lemma Joined(a: string, ma: string, sep: string, b: string, mb: string)
    requires Fits(a, ma) && Fits(b, mb) && NoDigits(sep)
    ensures Fits(a + sep + b, ma + sep + mb)
    ensures Digits(a + sep + b) == Digits(a) + Digits(b)
  {
    Literal(sep);
    Glue(a, ma, sep, sep);
    Glue(a + sep, ma + sep, b, mb);
  }

  /** The shape `(aa) bbbb-cccc`. */
  lemma AreaCodeLayout(a: string, ma: string, b: string, mb: string, c: string, mc: string)
    requires Fits(a, ma) && Fits(b, mb) && Fits(c, mc)
    ensures Fits("(" + a + ") " + b + "-" + c, "(" + ma + ") " + mb + "-" + mc)
    ensures Digits("(" + a + ") " + b + "-" + c) == Digits(a) + Digits(b) + Digits(c)
  {
    Literal("(");
    Glue("(", "(", a, ma);
    Joined("(" + a, "(" + ma, ") ", b, mb);
    Joined("(" + a + ") " + b, "(" + ma + ") " + mb, "-", c, mc);
  }

  lemma CnpjLayoutFits(d: string)
    requires |d| == 14 && AllDigits(d)
    ensures Fits(CnpjLayout(d), CnpjMask) && Digits(CnpjLayout(d)) == d
  {
    var a, b, c, e, f := d[..2], d[2..5], d[5..8], d[8..12], d[12..];
    DigitRun(a, Run2);
    DigitRun(b, Run3);
    DigitRun(c, Run3);
    DigitRun(e, Run4);
    DigitRun(f, Run2);
    Joined(a, Run2, ".", b, Run3);
    Joined(a + "." + b, Run2 + "." + Run3, ".", c, Run3);
    Joined(a + "." + b + "." + c, Run2 + "." + Run3 + "." + Run3, "/", e, Run4);
    Joined(a + "." + b + "." + c + "/" + e, Run2 + "." + Run3 + "." + Run3 + "/" + Run4, "-", f, Run2);
    assert d[..5] == a + b;
    assert d[..8] == d[..5] + c;
    assert d[..12] == d[..8] + e;
    assert d == d[..12] + f;
  }

  lemma Phone10LayoutFits(d: string)
    requires |d| == 10 && AllDigits(d)
    ensures Fits(Phone10Layout(d), Phone10Mask) && Digits(Phone10Layout(d)) == d
  {
    var a, b, c := d[..2], d[2..6], d[6..10];
    DigitRun(a, Run2);
    DigitRun(b, Run4);
    DigitRun(c, Run4);
    AreaCodeLayout(a, Run2, b, Run4, c, Run4);
    assert d[..6] == a + b;
    assert d == d[..6] + c;
  }

  lemma Phone11LayoutFits(d: string)
    requires |d| == 11 && AllDigits(d)
    ensures Fits(Phone11Layout(d), Phone11Mask) && Digits(Phone11Layout(d)) == d
  {
    var a, b, c := d[..2], d[2..7], d[7..11];
    DigitRun(a, Run2);
    DigitRun(b, Run5);
    DigitRun(c, Run4);
    AreaCodeLayout(a, Run2, b, Run5, c, Run4);
    assert d[..7] == a + b;
    assert d == d[..7] + c;
  }

  lemma Phone8LayoutFits(d: string)
    requires |d| == 8 && AllDigits(d)
    ensures Fits(Phone8Layout(d), Phone8Mask) && Digits(Phone8Layout(d)) == d
  {
    DigitRun(d[..4], Run4);
    DigitRun(d[4..8], Run4);
    Joined(d[..4], Run4, "-", d[4..8], Run4);
    assert d[..4] + d[4..8] == d;
  }

  lemma Phone9LayoutFits(d: string)
    requires |d| == 9 && AllDigits(d)
    ensures Fits(Phone9Layout(d), Phone9Mask) && Digits(Phone9Layout(d)) == d
  {
    DigitRun(d[..5], Run5);
    DigitRun(d[5..9], Run4);
    Joined(d[..5], Run5, "-", d[5..9], Run4);
    assert d[..5] + d[5..9] == d;
  }

  lemma CepLayoutFits(d: string)
    requires |d| == 8 && AllDigits(d)
    ensures Fits(CepLayout(d), CepMask) && Digits(CepLayout(d)) == d
  {
    DigitRun(d[..5], Run5);
    DigitRun(d[5..], Run3);
    Joined(d[..5], Run5, "-", d[5..], Run3);
    assert d[..5] + d[5..] == d;
  }
}

/**
 * The row loop of `readExcelFile` in src/components/excel-uploader.tsx: rows
 * of a parameter sheet, each `[name, value]`, fill an `ExcelData` record
 * field by field; an empty record is an error.
 *
 * The sheet is already decoded: a row is a sequence of cells, each cell
 * carrying its text when it is a string (`typeof cell === "string"`) and the
 * number `Number(cell)` gives for it, or None when that is NaN.
 */
module ExcelUploader {
  import opened Wrappers

  datatype Cell = Cell(text: Option<string>, number: Option<real>)

  type Row = seq<Cell>

  /** `ExcelData`: every parameter optional. There is no holding-cost field. */
  datatype ExcelData = ExcelData(
    dias: Option<real>,
    muD: Option<real>,
    sigmaD: Option<real>,
    c: Option<real>,
    s: Option<real>,
    l: Option<real>,
    serviceLevel: Option<real>)

  datatype Field = Dias | MuD | SigmaD | C | S | L | ServiceLevel

  const Empty: ExcelData := ExcelData(None, None, None, None, None, None, None)

  const NoDataMessage: string := "No se encontraron datos válidos en el formato esperado"

  function Get(d: ExcelData, f: Field): Option<real>
  {
    match f
    case Dias => d.dias
    case MuD => d.muD
    case SigmaD => d.sigmaD
    case C => d.c
    case S => d.s
    case L => d.l
    case ServiceLevel => d.serviceLevel
  }

  /** Writes one field, leaving the others as they are. */
  function Set(d: ExcelData, f: Field, v: real): (r: ExcelData)
    ensures Get(r, f) == Some(v)
    ensures forall g :: g != f ==> Get(r, g) == Get(d, g)
  {
    match f
    case Dias => d.(dias := Some(v))
    case MuD => d.(muD := Some(v))
    case SigmaD => d.(sigmaD := Some(v))
    case C => d.(c := Some(v))
    case S => d.(s := Some(v))
    case L => d.(l := Some(v))
    case ServiceLevel => d.(serviceLevel := Some(v))
  }

  /** `Object.keys(excelData).length === 0`: no field has been written. */
  predicate IsEmpty(d: ExcelData)
  {
    d == Empty
  }

  /** A record is empty exactly when every field is absent. */
  lemma EmptyIffNoField(d: ExcelData)
    ensures IsEmpty(d) <==> forall f :: Get(d, f).None?
  {
    if forall f :: Get(d, f).None? {
      assert Get(d, Dias).None? && Get(d, MuD).None? && Get(d, SigmaD).None? && Get(d, C).None?;
      assert Get(d, S).None? && Get(d, L).None? && Get(d, ServiceLevel).None?;
    }
  }

  // ---------------------------------------------------------------------------
  // Name normalisation
  // ---------------------------------------------------------------------------

  /** The white space and line terminators `String.prototype.trim` removes. */
  predicate IsWhitespace(ch: char)
  {
    ch == '\U{0009}' || ch == '\U{000A}' || ch == '\U{000B}' || ch == '\U{000C}' || ch == '\U{000D}' ||
    ch == '\U{0020}' || ch == '\U{00A0}' || ch == '\U{1680}' || ('\U{2000}' <= ch <= '\U{200A}') ||
    ch == '\U{2028}' || ch == '\U{2029}' || ch == '\U{202F}' || ch == '\U{205F}' || ch == '\U{3000}' ||
    ch == '\U{FEFF}'
  }

  /** Drops leading white space. */
  function TrimStart(str: string): (r: string)
    ensures |r| <= |str|
  {
    if |str| > 0 && IsWhitespace(str[0]) then TrimStart(str[1..]) else str
  }

  /** `TrimStart` keeps the longest suffix that does not start with white space. */
  lemma {:induction false} TrimStartSpec(str: string)
    ensures TrimStart(str) == str[|str| - |TrimStart(str)|..]
    ensures forall i :: 0 <= i < |str| - |TrimStart(str)| ==> IsWhitespace(str[i])
    ensures |TrimStart(str)| > 0 ==> !IsWhitespace(TrimStart(str)[0])
  {
    if |str| > 0 && IsWhitespace(str[0]) {
      TrimStartSpec(str[1..]);
      assert str[1..][|str| - 1 - |TrimStart(str)|..] == str[|str| - |TrimStart(str)|..];
      forall i | 1 <= i < |str| - |TrimStart(str)|
        ensures IsWhitespace(str[i])
      {
        assert str[i] == str[1..][i - 1];
      }
    }
  }

  /** Drops trailing white space. */
  function TrimEnd(str: string): (r: string)
    ensures |r| <= |str|
  {
    if |str| > 0 && IsWhitespace(str[|str| - 1]) then TrimEnd(str[..|str| - 1]) else str
  }

  /** `TrimEnd` keeps the longest prefix that does not end with white space. */
  lemma {:induction false} TrimEndSpec(str: string)
    ensures TrimEnd(str) == str[..|TrimEnd(str)|]
    ensures forall i :: |TrimEnd(str)| <= i < |str| ==> IsWhitespace(str[i])
    ensures |TrimEnd(str)| > 0 ==> !IsWhitespace(TrimEnd(str)[|TrimEnd(str)| - 1])
  {
    if |str| > 0 && IsWhitespace(str[|str| - 1]) {
      var init := str[..|str| - 1];
      TrimEndSpec(init);
      assert init[..|TrimEnd(str)|] == str[..|TrimEnd(str)|];
      forall i | |TrimEnd(str)| <= i < |str| - 1
        ensures IsWhitespace(str[i])
      {
        assert str[i] == init[i];
      }
    }
  }

  /** `trim()`: white space removed at both ends. */
  function Trim(str: string): (r: string)
    ensures |r| <= |str|
  {
    TrimEnd(TrimStart(str))
  }

  /**
   * Trimming keeps a contiguous run of the text, removes only white space
   * around it, and leaves no white space at either end.
   */
  lemma TrimSpec(str: string)
    ensures exists i, j ::
      && 0 <= i <= j <= |str| && Trim(str) == str[i..j]
      && (forall k :: 0 <= k < i ==> IsWhitespace(str[k]))
      && (forall k :: j <= k < |str| ==> IsWhitespace(str[k]))
    ensures |Trim(str)| > 0 ==> !IsWhitespace(Trim(str)[0]) && !IsWhitespace(Trim(str)[|Trim(str)| - 1])
  {
    var t := TrimStart(str);
    TrimStartSpec(str);
    TrimEndSpec(t);
    var i := |str| - |t|;
    var r := TrimEnd(t);
    var j := i + |r|;
    assert r == str[i..j];
    forall k | j <= k < |str|
      ensures IsWhitespace(str[k])
    {
      assert str[k] == t[k - i];
    }
    if |r| > 0 {
      assert r[0] == t[0];
    }
  }

  /** Trimming what is already trimmed changes nothing. */
  lemma TrimIdempotent(str: string)
    ensures Trim(Trim(str)) == Trim(str)
  {
    var r := Trim(str);
    TrimSpec(str);
    if |r| > 0 {
      assert TrimStart(r) == r;
      assert TrimEnd(r) == r;
    }
  }

  /** Lower case of one letter: ASCII A-Z and the Latin-1 capitals U+00C0..U+00DE except U+00D7. */
  function LowerChar(ch: char): (r: char)
    ensures !('A' <= r <= 'Z') && !('\U{00C0}' <= r <= '\U{00DE}' && r != '\U{00D7}')
    ensures r == ch || r as int == ch as int + 32
  {
    if 'A' <= ch <= 'Z' || ('\U{00C0}' <= ch <= '\U{00DE}' && ch != '\U{00D7}')
    then (ch as int + 32) as char
    else ch
  }

  /** Lower-casing neither creates nor removes white space. */
  lemma LowerCharWhitespace(ch: char)
    ensures IsWhitespace(LowerChar(ch)) <==> IsWhitespace(ch)
  {
  }

  /** `toLowerCase()` on the letters above; every other character is kept. */
  function Lower(str: string): (r: string)
    ensures |r| == |str|
  {
    seq(|str|, i requires 0 <= i < |str| => LowerChar(str[i]))
  }

  /** Lower-casing twice is lower-casing once: no lowered letter is a capital again. */
  lemma LowerIdempotent(str: string)
    ensures Lower(Lower(str)) == Lower(str)
  {
    assert forall i :: 0 <= i < |str| ==> LowerChar(LowerChar(str[i])) == LowerChar(str[i]);
  }

  /** The name a row is matched on: `row[0].trim().toLowerCase()`. */
  function Normalize(name: string): (r: string)
    ensures |r| <= |name|
  {
    Lower(Trim(name))
  }

  /** A normalised name is its own normal form: it has no white space to trim and no capital to lower. */
  lemma NormalizeIdempotent(name: string)
    ensures Normalize(Normalize(name)) == Normalize(name)
  {
    var t := Trim(name);
    var l := Lower(t);
    TrimSpec(name);
    if |l| > 0 {
      LowerCharWhitespace(t[0]);
      LowerCharWhitespace(t[|t| - 1]);
      assert !IsWhitespace(l[0]) && !IsWhitespace(l[|l| - 1]);
      assert TrimStart(l) == l;
      assert TrimEnd(l) == l;
    }
    assert Trim(l) == l;
    LowerIdempotent(t);
  }

  // ---------------------------------------------------------------------------
  // The switch
  // ---------------------------------------------------------------------------

  /** The `case` labels of the switch, each naming the field it writes. */
  const Aliases: map<string, Field> := map[
    "dias" := Dias, "período" := Dias, "periodo" := Dias, "días" := Dias,
    "demanda diaria" := MuD, "mu_d" := MuD, "demanda promedio" := MuD,
    "desviación estándar" := SigmaD, "sigma_d" := SigmaD, "desviacion estandar" := SigmaD,
    "costo por unidad" := C, "c" := C,
    "costo por pedido" := S, "s" := S,
    "tiempo de entrega" := L, "l" := L,
    "nivel de servicio" := ServiceLevel, "service level" := ServiceLevel]

  /** The field a normalised name selects, if any. */
  function FieldOf(name: string): Option<Field>
  {
    if name in Aliases then Some(Aliases[name]) else None
  }

  /** A name that trimming and lower-casing leave as it is: no white space at either end, no capital. */
  predicate IsNormalName(name: string)
  {
    && |name| > 0 && !IsWhitespace(name[0]) && !IsWhitespace(name[|name| - 1])
    && forall i :: 0 <= i < |name| ==> 'a' <= name[i] <= 'z' || name[i] == ' ' || name[i] == '_' || name[i] >= '\U{00DF}'
  }

  /** A normal name is its own normal form. */
  lemma NormalNameFixed(name: string)
    requires IsNormalName(name)
    ensures Normalize(name) == name
  {
  }

  /**
   * Every case label is already trimmed and lower-cased, so each one is
   * reachable from some cell text (for one, the label itself).
   */
  lemma AliasesNormalised(name: string)
    requires name in Aliases
    ensures Normalize(name) == name
  {
    assert IsNormalName(name);
    NormalNameFixed(name);
  }

  /** The value stored for a field: a service level above 1 is a percentage and is divided by 100. */
  function StoredValue(f: Field, v: real): (r: real)
    ensures f != ServiceLevel ==> r == v
    ensures f == ServiceLevel && v > 1.0 ==> r * 100.0 == v
    ensures f == ServiceLevel && v <= 1.0 ==> r == v
  {
    if f == ServiceLevel && v > 1.0 then v / 100.0 else v
  }

  /** Whether a row writes field f: at least two cells, a string name selecting f, and a value that is not NaN. */
  predicate Writes(row: Row, f: Field)
  {
    |row| >= 2 && row[0].text.Some? && row[1].number.Some? && FieldOf(Normalize(row[0].text.value)) == Some(f)
  }

  /** One pass of the loop body. */
  function ApplyRow(d: ExcelData, row: Row): ExcelData
  {
    if |row| >= 2 && row[0].text.Some? then
      var paramName := Normalize(row[0].text.value);
      var paramValue := row[1].number;
      if paramValue.Some? then
        match FieldOf(paramName)
        case Some(f) => Set(d, f, StoredValue(f, paramValue.value))
        case None => d
      else d
    else d
  }

  /** The record after the loop has run over `rows`. */
  function Parsed(rows: seq<Row>): ExcelData
  {
    if |rows| == 0 then Empty else ApplyRow(Parsed(rows[..|rows| - 1]), rows[|rows| - 1])
  }

  /** The outcome of `readExcelFile` once the sheet is decoded. */
  function ParseResult(rows: seq<Row>): Result<ExcelData, string>
  {
    var d := Parsed(rows);
    if IsEmpty(d) then Failure(NoDataMessage) else Success(d)
  }

  /** The loop of lines 73-119 and the check of lines 122-127. */
  method ParseParamRows(rows: seq<Row>) returns (r: Result<ExcelData, string>)
    ensures r == ParseResult(rows)
  {
    var excelData := Empty;
    for k := 0 to |rows|
      invariant excelData == Parsed(rows[..k])
    {
      assert rows[..k + 1][..k] == rows[..k];
      var row := rows[k];
      if |row| >= 2 && row[0].text.Some? {
        var paramName := Normalize(row[0].text.value);
        var paramValue := row[1].number;
        if paramValue.Some? {
          var v := paramValue.value;
          match FieldOf(paramName)
          case Some(f) =>
            match f {
            case Dias => excelData := excelData.(dias := Some(v));
            case MuD => excelData := excelData.(muD := Some(v));
            case SigmaD => excelData := excelData.(sigmaD := Some(v));
            case C => excelData := excelData.(c := Some(v));
            case S => excelData := excelData.(s := Some(v));
            case L => excelData := excelData.(l := Some(v));
            case ServiceLevel => excelData := excelData.(serviceLevel := Some(if v > 1.0 then v / 100.0 else v));
            }
          case None =>
        }
      }
    }
    assert rows[..|rows|] == rows;
    EmptyIffNoField(excelData);
    if excelData.dias.None? && excelData.muD.None? && excelData.sigmaD.None? && excelData.c.None? &&
       excelData.s.None? && excelData.l.None? && excelData.serviceLevel.None? {
      r := Failure(NoDataMessage);
    } else {
      r := Success(excelData);
    }
  }

  // ---------------------------------------------------------------------------
  // Properties
  // ---------------------------------------------------------------------------

  /** A row writes exactly the field its name selects, with the stored value, and nothing else. */
  lemma ApplyRowSpec(d: ExcelData, row: Row)
    ensures forall f :: Writes(row, f) ==> Get(ApplyRow(d, row), f) == Some(StoredValue(f, row[1].number.value))
    ensures forall f :: !Writes(row, f) ==> Get(ApplyRow(d, row), f) == Get(d, f)
  {
  }

  /** Rows that are too short, do not start with a string, or hold NaN leave the record unchanged. */
  lemma SkippedRows(d: ExcelData, row: Row)
    requires |row| < 2 || row[0].text.None? || row[1].number.None?
    ensures ApplyRow(d, row) == d
  {
  }

  /** A row whose name matches no alias leaves the record unchanged. */
  lemma UnknownNameIgnored(d: ExcelData, row: Row)
    requires |row| >= 2 && row[0].text.Some? && FieldOf(Normalize(row[0].text.value)).None?
    ensures ApplyRow(d, row) == d
  {
  }

  /** A field of the parsed record is absent exactly when no row writes it. */
  lemma {:induction false} AbsentIffNeverWritten(rows: seq<Row>, f: Field)
    ensures Get(Parsed(rows), f).None? <==> forall i :: 0 <= i < |rows| ==> !Writes(rows[i], f)
  {
    if |rows| > 0 {
      var n := |rows|;
      var init := rows[..n - 1];
      AbsentIffNeverWritten(init, f);
      ApplyRowSpec(Parsed(init), rows[n - 1]);
      if Writes(rows[n - 1], f) {
        assert Get(Parsed(rows), f).Some?;
      } else {
        assert Get(Parsed(rows), f) == Get(Parsed(init), f);
        assert forall i :: 0 <= i < n - 1 ==> rows[i] == init[i];
      }
    }
  }

  /** A field written by some row holds the value of the last row that writes it. */
  lemma {:induction false} LastWriteWins(rows: seq<Row>, f: Field, i: nat)
    requires i < |rows| && Writes(rows[i], f)
    requires forall j :: i < j < |rows| ==> !Writes(rows[j], f)
    ensures Get(Parsed(rows), f) == Some(StoredValue(f, rows[i][1].number.value))
  {
    var n := |rows|;
    var init := rows[..n - 1];
    ApplyRowSpec(Parsed(init), rows[n - 1]);
    if i < n - 1 {
      assert init[i] == rows[i];
      assert forall j :: i < j < n - 1 ==> init[j] == rows[j];
      LastWriteWins(init, f, i);
    }
  }

  /** The result is the error exactly when no row writes any field. */
  lemma ErrorIffNothingWritten(rows: seq<Row>)
    ensures ParseResult(rows).Failure? <==> forall i, f :: 0 <= i < |rows| ==> !Writes(rows[i], f)
    ensures ParseResult(rows).Failure? ==> ParseResult(rows).error == NoDataMessage
  {
    var d := Parsed(rows);
    EmptyIffNoField(d);
    if forall i, f :: 0 <= i < |rows| ==> !Writes(rows[i], f) {
      forall f
        ensures Get(d, f).None?
      {
        AbsentIffNeverWritten(rows, f);
      }
    } else {
      var i, f :| 0 <= i < |rows| && Writes(rows[i], f);
      AbsentIffNeverWritten(rows, f);
      assert Get(d, f).Some?;
    }
  }

  /** Every field is reachable from some alias, and every alias selects one field. */
  lemma AliasesCoverFields()
    ensures Aliases.Values == {Dias, MuD, SigmaD, C, S, L, ServiceLevel}
  {
    assert Aliases["dias"] == Dias;
    assert Aliases["mu_d"] == MuD;
    assert Aliases["sigma_d"] == SigmaD;
    assert Aliases["c"] == C;
    assert Aliases["s"] == S;
    assert Aliases["l"] == L;
    assert Aliases["service level"] == ServiceLevel;
  }

  /** Names are matched after trimming and lower-casing: " Días " selects the period. */
  lemma PaddedAccentedNameMatches()
    ensures FieldOf(Normalize(" Días ")) == Some(Dias)
  {
    assert TrimStart(" Días ") == "Días ";
    assert TrimEnd("Días ") == "Días";
    assert Lower("Días") == "días";
  }

  /** A row naming the holding cost is ignored: the record has no such field. */
  lemma HoldingCostRowIgnored(d: ExcelData, value: real)
    ensures ApplyRow(d, [Cell(Some("H"), None), Cell(None, Some(value))]) == d
  {
    assert TrimStart("H") == "H";
    assert TrimEnd("H") == "H";
    assert Lower("H") == "h";
  }

  /** A service level given in percent, between 1 and 100, is stored as a fraction between 0.01 and 1. */
  lemma ServiceLevelAsFraction(v: real)
    requires 1.0 < v <= 100.0
    ensures 0.01 < StoredValue(ServiceLevel, v) <= 1.0
  {
  }
}

/** The DISABLE_OTEL_EXPORT toggle that switches off the remote (OTLP) span
    exporter. The process environment is a parameter. */
module ExportToggle {
  import opened PyStr

  const ToggleVariable: string := "DISABLE_OTEL_EXPORT"

  /** The values that, once stripped and lower-cased, disable remote export. */
  const TruthyValues: set<string> := {"1", "true", "yes"}

  /** The value `os.getenv` reads for the toggle, with "" when it is unset. */
  function ToggleValue(env: map<string, string>): (v: string)
  {
    if ToggleVariable in env then env[ToggleVariable] else ""
  }

  /** Whether a raw toggle value disables remote export. */
  predicate DisablesExport(v: string)
  {
    Lower(Strip(v)) in TruthyValues
  }

  /** `otel_disabled()`. */
  predicate OtelDisabled(env: map<string, string>)
  {
    DisablesExport(ToggleValue(env))
  }

  /** The stripped text is "1", "true" or "yes" in any mix of cases. */
  predicate IsTruthySpelling(c: string)
  {
    SpelledAs(c, "1") || SpelledAs(c, "true") || SpelledAs(c, "yes")
  }

  /** Lower-casing gives one of the truthy words exactly when the text spells
      one of them, whatever the case of its letters. */
  lemma LowerTruthyIffSpelling(c: string)
    ensures Lower(c) in TruthyValues <==> IsTruthySpelling(c)
  {
    LowerIsSpelling(c, "1");
    LowerIsSpelling(c, "true");
    LowerIsSpelling(c, "yes");
  }

  /** A toggle value disables export exactly when its stripped text spells one
      of the truthy words, whatever the case of its letters. */
  lemma DisablesExportIffTruthySpelling(v: string)
    ensures DisablesExport(v) <==> IsTruthySpelling(Strip(v))
  {
    LowerTruthyIffSpelling(Strip(v));
  }

  /** Any whitespace around a truthy spelling is ignored. */
  lemma PaddedTruthyDisablesExport(a: string, c: string, b: string)
    requires AllSpace(a) && AllSpace(b)
    requires IsTruthySpelling(c)
    ensures DisablesExport(a + c + b)
  {
    assert c != [] && !IsSpace(c[0]) && !IsSpace(c[|c| - 1]);
    StripOfPadded(a, c, b);
    DisablesExportIffTruthySpelling(a + c + b);
  }

  /** A value surrounded by whitespace between indices: the shape the
      toggle accepts. */
  predicate PaddedTruthyAt(v: string, i: int, j: int)
  {
    0 <= i <= j <= |v| && SpaceBetween(v, 0, i) && IsTruthySpelling(v[i..j]) && SpaceBetween(v, j, |v|)
  }

  /** The same fact as PaddedTruthyDisablesExport, for one string given
      with the indices where its padding ends and starts. */
  lemma PaddedTruthyAtDisablesExport(v: string, i: int, j: int)
    requires PaddedTruthyAt(v, i, j)
    ensures DisablesExport(v)
  {
    var a, c, b := v[..i], v[i..j], v[j..];
    assert v == a + c + b;
    assert AllSpace(a) by {
      forall k | 0 <= k < |a| ensures IsSpace(a[k]) { assert a[k] == v[k]; }
    }
    assert AllSpace(b) by {
      forall k | 0 <= k < |b| ensures IsSpace(b[k]) { assert b[k] == v[j + k]; }
    }
    PaddedTruthyDisablesExport(a, c, b);
  }

  /** The toggle disables export exactly when its value is a truthy word in
      any case, surrounded by nothing but whitespace. */
  lemma DisablesExportIffPaddedTruthy(v: string)
    ensures DisablesExport(v) <==> exists i, j :: PaddedTruthyAt(v, i, j)
  {
    if DisablesExport(v) {
      DisablesExportIffTruthySpelling(v);
      assert PaddedTruthyAt(v, StripStart(v), StripEnd(v));
    }
    if exists i, j :: PaddedTruthyAt(v, i, j) {
      var i, j :| PaddedTruthyAt(v, i, j);
      PaddedTruthyAtDisablesExport(v, i, j);
    }
  }

  /** `otel_disabled()` holds exactly when DISABLE_OTEL_EXPORT is set to a
      truthy word in any case, surrounded by nothing but whitespace. */
  lemma OtelDisabledIff(env: map<string, string>)
    ensures OtelDisabled(env) <==>
      ToggleVariable in env && exists i, j :: PaddedTruthyAt(env[ToggleVariable], i, j)
  {
    if ToggleVariable in env {
      DisablesExportIffPaddedTruthy(env[ToggleVariable]);
    }
  }

  /** With DISABLE_OTEL_EXPORT unset the toggle reads as "", which keeps
      remote export on. */
  lemma UnsetKeepsExportOn(env: map<string, string>)
    requires ToggleVariable !in env
    ensures !OtelDisabled(env)
  {
  }
}

/** Concrete toggle values and what they do. */
module ExportToggleExamples {
  import opened PyStr
  import opened ExportToggle

  /** " TRUE " disables export. */
  lemma PaddedUpperTrueDisables()
    ensures DisablesExport(" TRUE ")
  {
    StripOfPadded(" ", "TRUE", " ");
    assert " " + "TRUE" + " " == " TRUE ";
    assert Lower("TRUE") == "true";
  }

  /** "\tYes\n" disables export. */
  lemma TabbedYesDisables()
    ensures DisablesExport("\tYes\n")
  {
    StripOfPadded("\t", "Yes", "\n");
    assert "\t" + "Yes" + "\n" == "\tYes\n";
    assert Lower("Yes") == "yes";
  }

  /** "on" is not one of the truthy words, so it leaves export on. */
  lemma OnKeepsExportOn()
    ensures !DisablesExport("on")
  {
  }
}

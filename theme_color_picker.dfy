/**
 * The theme colour picker: HSL colours parsed from "H S% L%" strings, the
 * colour state filled from a palette one theme variable at a time, and the
 * single-variable edits that switch the picker to a custom palette.
 */
module ThemeColorPicker {
  import opened Types
  import opened Text

  datatype Hsl = Hsl(h: string, s: string, l: string)

  const ZeroHsl := Hsl("0", "0", "0")

  /** The CSS variables the picker controls, in display order. */
  const ThemeVariables: seq<string> := [
    "--background", "--foreground", "--card", "--card-foreground", "--popover",
    "--popover-foreground", "--primary", "--primary-foreground", "--secondary",
    "--secondary-foreground", "--muted", "--muted-foreground", "--accent",
    "--accent-foreground", "--destructive", "--destructive-foreground", "--border",
    "--input", "--ring", "--sidebar-background", "--sidebar-foreground",
    "--sidebar-primary", "--sidebar-primary-foreground", "--sidebar-accent",
    "--sidebar-accent-foreground", "--sidebar-border", "--sidebar-ring"]

  /** The colours of the stylesheet's root rule, one per theme variable. */
  const DefaultColors: map<string, string> := map[
    "--background" := "200 50% 96%", "--foreground" := "210 40% 15%",
    "--card" := "200 40% 99%", "--card-foreground" := "210 40% 15%",
    "--popover" := "200 40% 99%", "--popover-foreground" := "210 40% 15%",
    "--primary" := "210 70% 45%", "--primary-foreground" := "210 20% 95%",
    "--secondary" := "190 60% 88%", "--secondary-foreground" := "190 30% 25%",
    "--muted" := "200 30% 93%", "--muted-foreground" := "200 20% 50%",
    "--accent" := "220 20% 60%", "--accent-foreground" := "220 15% 20%",
    "--destructive" := "0 70% 50%", "--destructive-foreground" := "0 0% 98%",
    "--border" := "200 30% 85%", "--input" := "200 30% 90%", "--ring" := "210 70% 55%",
    "--sidebar-background" := "220 30% 25%", "--sidebar-foreground" := "200 30% 85%",
    "--sidebar-primary" := "195 60% 50%", "--sidebar-primary-foreground" := "195 15% 95%",
    "--sidebar-accent" := "220 20% 35%", "--sidebar-accent-foreground" := "200 40% 90%",
    "--sidebar-border" := "220 20% 30%", "--sidebar-ring" := "195 60% 60%"]

  const DefaultPaletteName := "Oceà Profund (Defecte App)"
  const CustomPaletteName := "Personalitzada"

  datatype Palette = Palette(name: string, colors: map<string, string>)

  /** Every theme variable has a stylesheet default. */
  lemma DefaultsCoverVariables()
    ensures forall v :: v in ThemeVariables ==> v in DefaultColors
  {
  }

  // ---------------------------------------------------------------------
  // Parsing

  predicate NoSpace(t: string)
  {
    forall i :: 0 <= i < |t| ==> !IsSpace(t[i])
  }

  /** `s.split(/\s+/)`: the pieces between runs of white space, with an empty piece for a leading or trailing run. */
  function SplitSpaces(s: string): (r: seq<string>)
    ensures |r| >= 1
    ensures forall i :: 0 <= i < |r| ==> NoSpace(r[i])
  {
    if |s| == 0 then [""]
    else
      var rest := SplitSpaces(s[1..]);
      if IsSpace(s[0]) then (if |s| > 1 && IsSpace(s[1]) then rest else [""] + rest)
      else [[s[0]] + rest[0]] + rest[1..]
  }

  /** A word with no white space is one piece. */
  lemma {:induction false} SplitSingle(t: string)
    requires |t| > 0 && NoSpace(t)
    ensures SplitSpaces(t) == [t]
  {
    assert !IsSpace(t[0]) && [t[0]] + t[1..] == t;
    if |t| > 1 {
      SplitSingle(t[1..]);
    } else {
      assert t[1..] == [];
    }
  }

  /** A word followed by one space splits off as the first piece. */
  lemma {:induction false} SplitWord(t: string, rest: string)
    requires |t| > 0 && NoSpace(t) && (rest == [] || !IsSpace(rest[0]))
    ensures SplitSpaces(t + " " + rest) == [t] + SplitSpaces(rest)
  {
    var s := t + " " + rest;
    assert s[0] == t[0] && !IsSpace(t[0]) && [t[0]] + t[1..] == t;
    assert s[1..] == t[1..] + " " + rest;
    if |t| == 1 {
      assert t[1..] == [];
      assert s[1..][1..] == rest;
    } else {
      SplitWord(t[1..], rest);
    }
  }

  /** `s.replace('%', '')`: only the first percent sign goes. */
  function RemoveFirstPercent(s: string): (r: string)
    ensures '%' !in s ==> r == s
    ensures '%' in s ==> |r| == |s| - 1
    ensures forall i :: 0 <= i < |r| ==> r[i] in s
  {
    if |s| == 0 then ""
    else if s[0] == '%' then s[1..]
    else [s[0]] + RemoveFirstPercent(s[1..])
  }

  /** A percent sign appended to a value without one is exactly what goes. */
  lemma {:induction false} RemoveAppendedPercent(s: string)
    requires '%' !in s
    ensures RemoveFirstPercent(s + "%") == s
  {
    if |s| > 0 {
      assert (s + "%")[1..] == s[1..] + "%";
      RemoveAppendedPercent(s[1..]);
    }
  }

  /** `parseHslString`: three white-space separated pieces, the percent signs dropped from saturation and lightness. */
  function ParseHsl(text: string): (r: Option<Hsl>)
    ensures r.Some? ==> NoSpace(r.value.h) && NoSpace(r.value.s) && NoSpace(r.value.l)
  {
    var parts := SplitSpaces(Trim(text));
    if |parts| == 3 then Some(Hsl(parts[0], RemoveFirstPercent(parts[1]), RemoveFirstPercent(parts[2]))) else None
  }

  /** The value written back to a CSS variable. */
  function StyleValue(c: Hsl): string
  {
    c.h + " " + c.s + "% " + c.l + "%"
  }

  predicate WellFormed(c: Hsl)
  {
    |c.h| > 0 && NoSpace(c.h) && NoSpace(c.s) && NoSpace(c.l) && '%' !in c.s && '%' !in c.l
  }

  /** What the picker writes to a variable reads back as the same colour. */
  lemma StyleRoundTrip(c: Hsl)
    requires WellFormed(c)
    ensures ParseHsl(StyleValue(c)) == Some(c)
  {
    var sp := c.s + "%";
    var lp := c.l + "%";
    assert StyleValue(c) == c.h + " " + (sp + " " + lp);
    TrimNoop(StyleValue(c));
    SplitSingle(lp);
    SplitWord(sp, lp);
    SplitWord(c.h, sp + " " + lp);
    RemoveAppendedPercent(c.s);
    RemoveAppendedPercent(c.l);
  }

  /** White space before a colour does not matter. */
  lemma LeadingSpacesIgnored(sp: string, c: Hsl)
    requires forall i :: 0 <= i < |sp| ==> IsSpace(sp[i])
    requires WellFormed(c)
    ensures ParseHsl(sp + StyleValue(c)) == Some(c)
  {
    assert StyleValue(c)[|StyleValue(c)| - 1] == '%';
    TrimAfterSpaces(sp, StyleValue(c));
    StyleRoundTrip(c);
  }

  /** Two words are not a colour. */
  lemma TwoPiecesRejected(a: string, b: string)
    requires |a| > 0 && NoSpace(a) && |b| > 0 && NoSpace(b)
    ensures ParseHsl(a + " " + b) == None
  {
    TrimNoop(a + " " + b);
    SplitSingle(b);
    SplitWord(a, b);
  }

  // ---------------------------------------------------------------------
  // Palettes

  /** `palette.colors[v] || defaultColorsFromCSS[v]`: an empty or missing palette value falls back to the default. */
  function ColorText(p: Palette, defaults: map<string, string>, v: string): string
    requires v in defaults
  {
    if v in p.colors && p.colors[v] != "" then p.colors[v] else defaults[v]
  }

  /** The colour a palette gives a variable: the parsed text, or black when it does not parse. */
  function PaletteEntry(p: Palette, defaults: map<string, string>, v: string): Hsl
    requires v in defaults
  {
    match ParseHsl(ColorText(p, defaults, v))
    case Some(c) => c
    case None => ZeroHsl
  }

  /**
   * A palette value that parses wins; a missing or empty one takes the
   * default's colour; one that does not parse gives black even when the
   * default would parse.
   */
  lemma PaletteEntryCases(p: Palette, defaults: map<string, string>, v: string)
    requires v in defaults
    ensures v in p.colors && p.colors[v] != "" && ParseHsl(p.colors[v]).Some? ==> PaletteEntry(p, defaults, v) == ParseHsl(p.colors[v]).value
    ensures v in p.colors && p.colors[v] != "" && ParseHsl(p.colors[v]).None? ==> PaletteEntry(p, defaults, v) == ZeroHsl
    ensures !(v in p.colors && p.colors[v] != "") ==>
      PaletteEntry(p, defaults, v) == if ParseHsl(defaults[v]).Some? then ParseHsl(defaults[v]).value else ZeroHsl
  {
  }

  /** The colour state built from a palette over some variables, in order. */
  function PaletteColors(p: Palette, defaults: map<string, string>, vars: seq<string>): map<string, Hsl>
    requires forall v :: v in vars ==> v in defaults
  {
    if |vars| == 0 then map[]
    else PaletteColors(p, defaults, vars[..|vars| - 1])[vars[|vars| - 1] := PaletteEntry(p, defaults, vars[|vars| - 1])]
  }

  /** Exactly one entry per variable, each the palette's colour for it. */
  lemma {:induction false} PaletteColorsShape(p: Palette, defaults: map<string, string>, vars: seq<string>)
    requires forall v :: v in vars ==> v in defaults
    ensures forall v :: v in PaletteColors(p, defaults, vars) <==> v in vars
    ensures forall v :: v in vars ==> PaletteColors(p, defaults, vars)[v] == PaletteEntry(p, defaults, v)
  {
    if |vars| > 0 {
      var front := vars[..|vars| - 1];
      var last := vars[|vars| - 1];
      assert vars == front + [last];
      PaletteColorsShape(p, defaults, front);
    }
  }

  /** One more variable adds its palette entry to the colours of the ones before it. */
  lemma PaletteColorsSnoc(p: Palette, defaults: map<string, string>, vars: seq<string>, i: nat)
    requires i < |vars| && forall v :: v in vars ==> v in defaults
    ensures PaletteColors(p, defaults, vars[..i + 1])
         == PaletteColors(p, defaults, vars[..i])[vars[i] := PaletteEntry(p, defaults, vars[i])]
  {
    assert vars[..i + 1][..i] == vars[..i];
  }

  /** The `forEach` over the variables, one entry at a time. */
  method FillColors(p: Palette, defaults: map<string, string>, vars: seq<string>) returns (colors: map<string, Hsl>)
    requires forall v :: v in vars ==> v in defaults
    ensures colors == PaletteColors(p, defaults, vars)
  {
    colors := map[];
    var i := 0;
    while i < |vars|
      invariant 0 <= i <= |vars|
      invariant colors == PaletteColors(p, defaults, vars[..i])
    {
      PaletteColorsSnoc(p, defaults, vars, i);
      colors := colors[vars[i] := PaletteEntry(p, defaults, vars[i])];
      i := i + 1;
    }
    assert vars[..i] == vars;
  }

  // ---------------------------------------------------------------------
  // Picker state

  class Picker {
    var currentColors: map<string, Hsl>
    var selectedPaletteName: string
    var paletteMenuOpen: bool

    constructor ()
      ensures currentColors == map[] && selectedPaletteName == DefaultPaletteName && !paletteMenuOpen
    {
      currentColors := map[];
      selectedPaletteName := DefaultPaletteName;
      paletteMenuOpen := false;
    }

    /** `applyPalette`: every theme variable set from the palette, the palette's name selected, the menu closed. */
    method ApplyPalette(p: Palette)
      modifies this
      ensures currentColors == PaletteColors(p, DefaultColors, ThemeVariables)
      ensures selectedPaletteName == p.name && !paletteMenuOpen
    {
      DefaultsCoverVariables();
      var colors := FillColors(p, DefaultColors, ThemeVariables);
      currentColors := colors;
      selectedPaletteName := p.name;
      paletteMenuOpen := false;
    }

    /** `handleColorChange`: one variable takes the new colour and the palette becomes the custom one. */
    method ChangeColor(cssVar: string, c: Hsl)
      modifies this
      ensures currentColors == old(currentColors)[cssVar := c]
      ensures forall v :: v != cssVar && v in old(currentColors) ==> v in currentColors && currentColors[v] == old(currentColors)[v]
      ensures selectedPaletteName == CustomPaletteName && paletteMenuOpen == old(paletteMenuOpen)
    {
      currentColors := currentColors[cssVar := c];
      if selectedPaletteName != CustomPaletteName {
        selectedPaletteName := CustomPaletteName;
      }
    }
  }
}

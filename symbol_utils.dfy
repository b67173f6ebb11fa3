/**
 * `Symbol::add_hidden_property` and `Symbol::add_property` of
 * `src/kicad/model/symbol_utils.rs`: the converter's way of attaching text
 * properties (reference, value, datasheet, part number) to a symbol.
 */
module SymbolUtils {
  import opened Wrappers
  import opened Numbers
  import opened Common
  import S = SymbolLibrary

  /** `(0, 0)` with angle 0 for a hidden property, `(x, y)` with angle 0 for a visible one. */
  function PropertyAt(x: Num, y: Num): Position
  {
    Position(x, y, Some(Finite(0.0)))
  }

  function HiddenEffect(): TextEffect
  {
    DefaultEffect().(hidden := true)
  }

  /**
   * The symbol after `add_hidden_property`: one property appended after the existing ones,
   * with no id, at the origin with angle 0, not hidden itself but with
   * hidden text effects.
   */
  function WithHiddenProperty(s: S.Symbol, key: string, value: string): (r: S.Symbol)
    ensures |r.properties| == |s.properties| + 1
    ensures r.properties[..|s.properties|] == s.properties
    ensures r.(properties := s.properties) == s
    ensures var p := r.properties[|s.properties|];
            && p.key == key && p.value == value && p.id.None? && !p.hidden
            && p.position == Position(Finite(0.0), Finite(0.0), Some(Finite(0.0)))
            && p.effects.hidden && p.effects.font == DefaultFont() && p.effects.justify == DefaultJustify()
  {
    s.(properties := s.properties + [S.Property(None, key, value, false, PropertyAt(Finite(0.0), Finite(0.0)), HiddenEffect())])
  }

  /**
   * The symbol after `add_property`: one property appended after the existing ones, with no
   * id, at `(x, y)` with angle 0, with default (visible) text effects.
   */
  function WithProperty(s: S.Symbol, key: string, value: string, x: Num, y: Num): (r: S.Symbol)
    ensures |r.properties| == |s.properties| + 1
    ensures r.properties[..|s.properties|] == s.properties
    ensures r.(properties := s.properties) == s
    ensures var p := r.properties[|s.properties|];
            && p.key == key && p.value == value && p.id.None? && !p.hidden
            && p.position == Position(x, y, Some(Finite(0.0))) && p.effects == DefaultEffect() && !p.effects.hidden
  {
    s.(properties := s.properties + [S.Property(None, key, value, false, PropertyAt(x, y), DefaultEffect())])
  }

  /**
   * A symbol being edited in place: `add_hidden_property` and
   * `add_property` take `&mut self` and push onto its property list.
   */
  class SymbolEditor {
    var symbol: S.Symbol

    constructor (s: S.Symbol)
      ensures symbol == s
    {
      symbol := s;
    }

    method AddHiddenProperty(key: string, value: string)
      modifies this
      ensures symbol == WithHiddenProperty(old(symbol), key, value)
    {
      symbol := symbol.(properties := symbol.properties + [S.Property(None, key, value, false, PropertyAt(Finite(0.0), Finite(0.0)), HiddenEffect())]);
    }

    method AddProperty(key: string, value: string, x: Num, y: Num)
      modifies this
      ensures symbol == WithProperty(old(symbol), key, value, x, y)
    {
      symbol := symbol.(properties := symbol.properties + [S.Property(None, key, value, false, PropertyAt(x, y), DefaultEffect())]);
    }
  }

  /** Reading back a symbol whose properties were extended gives the extended properties, everything else as before. */
  lemma ReadBackExtended(s: S.Symbol, p: S.Property)
    ensures S.ReadBack(s.(properties := s.properties + [p])) == S.ReadBack(s).(properties := s.properties + [p])
  {
    var t := s.(properties := s.properties + [p]);
    assert S.ReadBackUnits(t) == S.ReadBackUnits(s);
  }

  /** A property added by `add_property` survives writing and reading the symbol, after the earlier ones. */
  lemma AddedPropertyReadsBack(s: S.Symbol, key: string, value: string, x: Num, y: Num)
    ensures S.ReadSymbol(S.WriteSymbol(WithProperty(s, key, value, x, y)))
         == Some(S.ReadBack(s).(properties := WithProperty(s, key, value, x, y).properties))
  {
    var r := WithProperty(s, key, value, x, y);
    S.SymbolRoundTrip(r);
    ReadBackExtended(s, r.properties[|s.properties|]);
    assert r == s.(properties := s.properties + [r.properties[|s.properties|]]);
  }

  /** A property added by `add_hidden_property` survives writing and reading the symbol, after the earlier ones. */
  lemma HiddenPropertyReadsBack(s: S.Symbol, key: string, value: string)
    ensures S.ReadSymbol(S.WriteSymbol(WithHiddenProperty(s, key, value)))
         == Some(S.ReadBack(s).(properties := WithHiddenProperty(s, key, value).properties))
  {
    var r := WithHiddenProperty(s, key, value);
    S.SymbolRoundTrip(r);
    ReadBackExtended(s, r.properties[|s.properties|]);
    assert r == s.(properties := s.properties + [r.properties[|s.properties|]]);
  }
}

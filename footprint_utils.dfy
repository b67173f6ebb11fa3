/**
 * `FootprintLibrary::add_hidden_property` of
 * `src/kicad/model/footprint_utils.rs`: the converter's way of attaching a
 * hidden, unlocked text property (a datasheet link, a part number) to a
 * footprint.
 */
module FootprintUtils {
  import opened Wrappers
  import opened Numbers
  import opened Folding
  import opened Common
  import opened Scalars
  import opened PcbLayers
  import opened FootprintRecords
  import opened Footprints

  /** The property `add_hidden_property` appends. */
  function HiddenProperty(key: string, value: string): FootprintProperty
  {
    FootprintProperty(key, Some(value), Scalar3D("at", Finite(0.0), Finite(0.0), Finite(0.0)), FFab, Some(true), Some(true),
                      None, DefaultEffect().(hidden := true))
  }

  /**
   * The footprint after `add_hidden_property`: one property appended after the existing ones,
   * with the given key and value, at the origin on `F.Fab`, hidden and
   * unlocked, with no uuid and hidden default text effects.
   */
  function WithHiddenProperty(f: FootprintLibrary, key: string, value: string): (r: FootprintLibrary)
    ensures |r.properties| == |f.properties| + 1
    ensures r.properties[..|f.properties|] == f.properties
    ensures r.(properties := f.properties) == f
    ensures var p := r.properties[|f.properties|];
            && p.key == key && p.value == Some(value)
            && p.position == Scalar3D("at", Finite(0.0), Finite(0.0), Finite(0.0)) && p.layer == FFab && p.uuid.None?
            && p.hidden == Some(true) && p.unlocked == Some(true)
            && p.effects.hidden && p.effects.font == DefaultFont() && p.effects.justify == DefaultJustify()
  {
    f.(properties := f.properties + [HiddenProperty(key, value)])
  }

  /** A footprint being edited in place: `add_hidden_property` takes `&mut self` and pushes onto its property list. */
  class FootprintEditor {
    var footprint: FootprintLibrary

    constructor (f: FootprintLibrary)
      ensures footprint == f
    {
      footprint := f;
    }

    method AddHiddenProperty(key: string, value: string)
      modifies this
      ensures footprint == WithHiddenProperty(old(footprint), key, value)
    {
      footprint := footprint.(properties := footprint.properties + [HiddenProperty(key, value)]);
    }
  }

  /** Adding a hidden property keeps a footprint fit for the round trip. */
  lemma AddKeepsRereadable(f: FootprintLibrary, key: string, value: string)
    requires Rereadable(f)
    ensures Rereadable(WithHiddenProperty(f, key, value))
  {
    var r := WithHiddenProperty(f, key, value);
    forall i | 0 <= i < |r.properties|
      ensures r.properties[i].position.name == "at"
    {
      if i < |f.properties| {
        assert r.properties[i] == r.properties[..|f.properties|][i];
      }
    }
  }

  /**
   * A hidden property with a non-empty value survives writing and reading
   * the footprint: it comes back, unchanged, after the properties that were
   * there before.
   */
  lemma HiddenPropertyReadsBack(f: FootprintLibrary, key: string, value: string)
    requires Rereadable(f) && value != ""
    ensures ReadFootprintLibrary(Retokenized(WithHiddenProperty(f, key, value)))
         == Some(LibraryBack(f).(properties := LibraryBack(f).properties + [HiddenProperty(key, value)]))
  {
    var r := WithHiddenProperty(f, key, value);
    AddKeepsRereadable(f, key, value);
    LibraryRoundTrip(r);
    assert r.properties == f.properties + [HiddenProperty(key, value)];
    MapSnoc(f.properties, HiddenProperty(key, value), PropertyBack);
    assert PropertyBack(HiddenProperty(key, value)) == HiddenProperty(key, value);
  }
}

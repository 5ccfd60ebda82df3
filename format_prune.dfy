/**
 * `Format.pruneEmbeds()`: drops embed fields that lack a name or a value, then drops
 * embeds left with nothing in them; `format.embeds` is rewritten in place.
 */
module Formats {
  import opened Wrappers

  /** One entry of an embed's `fields`. */
  datatype EmbedField = EmbedField(name: Option<string>, value: Option<string>)

  /**
   * An embed: its scalar properties (title, description, colour, ...) by name, and its
   * fields. An embed without a `fields` property has an empty `fields` here.
   */
  datatype Embed = Embed(properties: map<string, string>, fields: seq<EmbedField>)

  /** A field is kept when both its name and its value are set. */
  predicate Complete(f: EmbedField) {
    Truthy(f.name) && Truthy(f.value)
  }

  predicate IsEmpty(e: Embed) {
    e.properties == map[] && e.fields == []
  }

  function CompleteFields(fs: seq<EmbedField>): seq<EmbedField> {
    if fs == [] then []
    else CompleteFields(fs[..|fs| - 1]) + (if Complete(fs[|fs| - 1]) then [fs[|fs| - 1]] else [])
  }

  function PruneEmbed(e: Embed): Embed {
    e.(fields := CompleteFields(e.fields))
  }

  /** The embeds `pruneEmbeds` leaves, in their original order. */
  function Pruned(es: seq<Embed>): seq<Embed> {
    if es == [] then []
    else Pruned(es[..|es| - 1]) + (if IsEmpty(PruneEmbed(es[|es| - 1])) then [] else [PruneEmbed(es[|es| - 1])])
  }

  // ---------------------------------------------------------------- properties

  /** Exactly the complete fields survive, unchanged and in order. */
  lemma {:induction false} CompleteFieldsExact(fs: seq<EmbedField>)
    ensures forall f :: f in CompleteFields(fs) <==> f in fs && Complete(f)
    ensures |CompleteFields(fs)| <= |fs|
    ensures CompleteFields(fs) == fs <==> forall f :: f in fs ==> Complete(f)
  {
    if fs != [] {
      CompleteFieldsExact(fs[..|fs| - 1]);
      assert fs == fs[..|fs| - 1] + [fs[|fs| - 1]];
    }
  }

  /** No embed left is empty; each one is the pruned form of an input embed. */
  lemma {:induction false} PrunedNonEmpty(es: seq<Embed>)
    ensures forall e :: e in Pruned(es) ==> !IsEmpty(e)
    ensures forall e :: e in Pruned(es) ==> exists d :: d in es && e == PruneEmbed(d)
    ensures |Pruned(es)| <= |es|
  {
    if es != [] {
      PrunedNonEmpty(es[..|es| - 1]);
      forall e | e in Pruned(es)
        ensures exists d :: d in es && e == PruneEmbed(d)
      {
        if e in Pruned(es[..|es| - 1]) {
          var d :| d in es[..|es| - 1] && e == PruneEmbed(d);
          assert d in es;
        } else {
          assert e == PruneEmbed(es[|es| - 1]);
        }
      }
    }
  }

  /** An embed with any property (a title, say) or any complete field is kept, in pruned form. */
  lemma {:induction false} PrunedKeeps(es: seq<Embed>, e: Embed)
    requires e in es
    requires e.properties != map[] || exists f :: f in e.fields && Complete(f)
    ensures PruneEmbed(e) in Pruned(es)
  {
    var last := es[|es| - 1];
    if e == last {
      CompleteFieldsExact(e.fields);
      assert !IsEmpty(PruneEmbed(e));
    } else {
      assert es == es[..|es| - 1] + [last];
      PrunedKeeps(es[..|es| - 1], e);
    }
  }

  /** Pruning twice changes nothing more. */
  lemma {:induction false} PrunedIdempotent(es: seq<Embed>)
    ensures Pruned(Pruned(es)) == Pruned(es)
  {
    if es != [] {
      var init := es[..|es| - 1];
      var p := PruneEmbed(es[|es| - 1]);
      PrunedIdempotent(init);
      CompleteFieldsExact(p.fields);
      assert CompleteFields(CompleteFields(es[|es| - 1].fields)) == CompleteFields(es[|es| - 1].fields) by {
        CompleteFieldsExact(es[|es| - 1].fields);
        CompleteFieldsExact(CompleteFields(es[|es| - 1].fields));
      }
      PrunedAppend(Pruned(init), if IsEmpty(p) then [] else [p]);
    }
  }

  lemma {:induction false} PrunedAppend(xs: seq<Embed>, ys: seq<Embed>)
    requires |ys| <= 1
    ensures Pruned(xs + ys) == Pruned(xs) + Pruned(ys)
  {
    if ys != [] {
      assert (xs + ys)[..|xs + ys| - 1] == xs;
      assert Pruned(ys) == (if IsEmpty(PruneEmbed(ys[0])) then [] else [PruneEmbed(ys[0])]) by {
        assert ys[..0] == [];
      }
    } else {
      assert xs + ys == xs;
    }
  }

  /** The first `pruneEmbeds` example: an empty field and a name-only field are removed. */
  lemma ExampleFields()
    ensures Pruned([Embed(map[], [EmbedField(None, None), EmbedField(Some("abc"), None), EmbedField(Some("foo"), Some("bar"))])])
         == [Embed(map[], [EmbedField(Some("foo"), Some("bar"))])]
  {
    var fs := [EmbedField(None, None), EmbedField(Some("abc"), None), EmbedField(Some("foo"), Some("bar"))];
    assert fs[..1][..0] == [];
    assert CompleteFields(fs[..1]) == [];
    assert fs[..2][..1] == fs[..1];
    assert CompleteFields(fs[..2]) == [];
    assert fs[..2] == fs[..|fs| - 1];
    assert CompleteFields(fs) == [EmbedField(Some("foo"), Some("bar"))];
  }

  /** The second `pruneEmbeds` example: the two empty embeds around a titled one are removed. */
  lemma ExampleNonField()
    ensures Pruned([Embed(map[], []), Embed(map["title" := "dodat"], []), Embed(map[], [])])
         == [Embed(map["title" := "dodat"], [])]
  {
    var es := [Embed(map[], []), Embed(map["title" := "dodat"], []), Embed(map[], [])];
    assert es[..1][..0] == [];
    assert Pruned(es[..1]) == [];
    assert es[..2][..1] == es[..1];
    assert PruneEmbed(es[1]) == es[1];
    assert "title" in es[1].properties;
    assert !IsEmpty(es[1]);
    assert Pruned(es[..2]) == [Embed(map["title" := "dodat"], [])];
    assert es[..2] == es[..|es| - 1];
  }

  // ------------------------------------------------------------------ objects

  /** The loop over one embed's fields, keeping the complete ones. */
  method PruneFields(fs: seq<EmbedField>) returns (kept: seq<EmbedField>)
    ensures kept == CompleteFields(fs)
  {
    kept := [];
    var i := 0;
    while i < |fs|
      invariant 0 <= i <= |fs|
      invariant kept == CompleteFields(fs[..i])
    {
      assert fs[..i + 1][..i] == fs[..i];
      if Complete(fs[i]) {
        kept := kept + [fs[i]];
      }
      i := i + 1;
    }
    assert fs[..|fs|] == fs;
  }

  class Format {
    var embeds: seq<Embed>

    constructor (embeds: seq<Embed>)
      ensures this.embeds == embeds
    {
      this.embeds := embeds;
    }

    method PruneEmbeds()
      modifies this`embeds
      ensures embeds == Pruned(old(embeds))
    {
      var original := embeds;
      var result: seq<Embed> := [];
      var i := 0;
      while i < |original|
        invariant 0 <= i <= |original|
        invariant result == Pruned(original[..i])
      {
        assert original[..i + 1][..i] == original[..i];
        var fields := PruneFields(original[i].fields);
        var e := original[i].(fields := fields);
        if !IsEmpty(e) {
          result := result + [e];
        }
        i := i + 1;
      }
      assert original[..|original|] == original;
      embeds := result;
    }
  }
}

/** The "become an artist" form (`src/components/modals/BecomeArtistModal.tsx`): three
    text fields, a submit gate, and the comma-separated tag parser. Submitting hands an
    artist profile to the store's `becomeArtist` and clears the form. */
module BecomeArtist {
  import opened Wrappers
  import opened Text
  import opened Seqs
  import AppStore

  /** The trimmed pieces of `s.split(',')`, in order. */
  function TrimmedPieces(s: string): (r: seq<string>)
    ensures |r| == |Split(s, ',')|
    ensures forall i | 0 <= i < |r| :: r[i] == Trim(Split(s, ',')[i]) && Trimmed(r[i])
  {
    var pieces := Split(s, ',');
    seq(|pieces|, i requires 0 <= i < |pieces| => Trim(pieces[i]))
  }

  predicate NonEmpty(t: string) {
    |t| > 0
  }

  /** `tags.split(',').map(t => t.trim()).filter(t => t.length > 0)`. */
  function ParseTags(s: string): (tags: seq<string>)
    ensures forall i | 0 <= i < |tags| :: tags[i] != "" && Trimmed(tags[i])
    ensures forall i | 0 <= i < |tags| :: ',' !in tags[i]
    ensures |tags| <= CountChar(s, ',') + 1
    ensures forall i | 0 <= i < |Split(s, ',')| :: !Blank(Split(s, ',')[i]) ==> Trim(Split(s, ',')[i]) in tags
  {
    var pieces := TrimmedPieces(s);
    SplitPieces(s, ',');
    var tags := Filter(pieces, NonEmpty);
    assert forall i | 0 <= i < |pieces| :: NonEmpty(pieces[i]) ==> pieces[i] in tags;
    forall i | 0 <= i < |tags|
      ensures ',' !in tags[i]
    {
      var j :| 0 <= j < |pieces| && pieces[j] == tags[i];
      var piece := Split(s, ',')[j];
      assert piece in Split(s, ',') && pieces[j] == Trim(piece);
      assert ',' !in piece;
    }
    tags
  }

  /** Input without a comma gives the single trimmed input, or no tag at all when blank. */
  lemma ParseTagsWithoutComma(s: string)
    requires ',' !in s
    ensures !Blank(s) ==> ParseTags(s) == [Trim(s)]
    ensures Blank(s) ==> ParseTags(s) == []
  {
    SplitWithoutSeparator(s, ',');
    var t := Trim(s);
    assert TrimmedPieces(s) == [t];
    assert ParseTags(s) == Filter([t], NonEmpty);
    assert Filter([t], NonEmpty) == (if NonEmpty(t) then [t] else []) + Filter([], NonEmpty);
  }

  /** Tags come out in input order, field by field: the tags of everything up to the
      first comma, followed by the tags of the rest. Blank fields contribute nothing. */
  lemma {:induction false} ParseTagsKeepsOrder(a: string, b: string)
    requires ',' !in a
    ensures ParseTags(a + [','] + b) == ParseTags(a) + ParseTags(b)
  {
    var s := a + [','] + b;
    SplitAtSeparator(a, b, ',');
    SplitWithoutSeparator(a, ',');
    assert TrimmedPieces(s) == [Trim(a)] + TrimmedPieces(b);
    assert TrimmedPieces(a) == [Trim(a)];
    FilterAppend([Trim(a)], TrimmedPieces(b), NonEmpty);
  }

  /** `isSubmitEnabled`. */
  predicate SubmitEnabled(name: string, bio: string) {
    |Trim(name)| > 0 && |Trim(bio)| > 0
  }

  /** The profile `handleSubmit` hands to the store, if the gate lets it through. */
  function Submission(name: string, bio: string, tags: string): (r: Option<AppStore.ArtistProfile>)
    ensures r.Some? <==> SubmitEnabled(name, bio)
    ensures r.Some? ==>
      r.value.name == Trim(name) && r.value.bio == Trim(bio) &&
      r.value.name != "" && r.value.bio != "" && r.value.tags == ParseTags(tags)
  {
    if |Trim(name)| > 0 && |Trim(bio)| > 0 then Some(AppStore.ArtistProfile(Trim(name), Trim(bio), ParseTags(tags)))
    else None
  }

  /** A name or bio of blanks can never become an artist profile. */
  lemma BlankNeverSubmits(name: string, bio: string, tags: string)
    requires Blank(name) || Blank(bio)
    ensures Submission(name, bio, tags).None?
  {
  }

  class BecomeArtistForm {
    var name: string
    var bio: string
    var tags: string

    constructor ()
      ensures name == "" && bio == "" && tags == ""
    {
      name, bio, tags := "", "", "";
    }

    /** `handleSubmit`: returns the `becomeArtist` call it makes, if any, and whether it
        closes the modal; a made call also empties all three fields, a refused one changes
        nothing. */
    method HandleSubmit() returns (call: Option<AppStore.ArtistProfile>, closed: bool)
      modifies this
      ensures call == Submission(old(name), old(bio), old(tags))
      ensures closed <==> call.Some?
      ensures call.Some? ==> name == "" && bio == "" && tags == ""
      ensures call.None? ==> name == old(name) && bio == old(bio) && tags == old(tags)
    {
      var n, b, t := name, bio, tags;
      call := Submission(n, b, t);
      closed := call.Some?;
      if closed {
        name, bio, tags := "", "", "";
      }
    }
  }
}

/**
 * The display mappings that the list and the details screens both define,
 * with the same code: an event status to a tag colour, and the optional
 * public flag to a visibility tag.
 */
module EventTags {
  import opened Wrappers
  import opened Text

  /** `{ text, color }` of an Ant Design tag. */
  datatype Tag = Tag(text: string, color: string)

  const PublicTag: Tag := Tag("Public", "blue")
  const PrivateTag: Tag := Tag("Private", "orange")

  /** The colour of a status, compared case-insensitively. */
  function StatusColor(status: string): (color: string)
    ensures color == "green" <==> ToLower(status) == "active"
    ensures color == "red" <==> ToLower(status) == "inactive"
    ensures color == "orange" <==> ToLower(status) == "draft"
    ensures color == "default" <==> ToLower(status) !in {"active", "inactive", "draft"}
  {
    var s := ToLower(status);
    if s == "active" then "green"
    else if s == "inactive" then "red"
    else if s == "draft" then "orange"
    else "default"
  }

  /** Changing the case of a status never changes its colour. */
  lemma StatusColorIgnoresCase(status: string)
    ensures StatusColor(ToLower(status)) == StatusColor(status)
  {
    ToLowerIdempotent(status);
  }

  /** The status a created event gets shows green. */
  lemma ActiveIsGreen()
    ensures StatusColor("Active") == "green"
  {
    assert ToLower("Active") == "active" by {
      assert "Active" == ['A'] + "ctive";
      assert ToLower("ctive") == "ctive" by {
        assert "ctive" == ['c'] + "tive";
        assert "tive" == ['t'] + "ive";
        assert "ive" == ['i'] + "ve";
        assert "ve" == ['v'] + "e";
        assert "e" == ['e'] + "";
      }
    }
  }

  /** Public exactly when the flag is present and true; absent or false is private. */
  function VisibilityTag(isPublic: Option<bool>): (t: Tag)
    ensures t == PublicTag <==> isPublic == Some(true)
    ensures t == PrivateTag <==> isPublic != Some(true)
  {
    if isPublic == Some(true) then PublicTag else PrivateTag
  }
}

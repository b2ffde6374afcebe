/** The stream-start form: the tag tokenizer behind the tags input, the
    140-character caps on the title and the notification, the category options
    and the request body sent to start the broadcast. */
module StartStream {
  import opened Common

  const Space := ' '
  /** An edit is accepted only while the new text is shorter than this. */
  const MaxLength := 140

  /** The filter callback `(tag) => tag.trim() !== ''`. */
  predicate NonBlank(tag: string) {
    Trim(tag) != ""
  }

  /** `handleTagsChange`: split on spaces; every piece but the last is a finished
      tag and is kept when not blank; the last piece is the draft being typed
      and is always kept. */
  function ParseTags(text: string): (tags: seq<string>)
    ensures |tags| >= 1
    ensures forall i :: 0 <= i < |tags| ==> Space !in tags[i]
    ensures forall i :: 0 <= i < |tags| - 1 ==> NonBlank(tags[i])
  {
    var parts := Split(text, Space);
    var finished := parts[..|parts| - 1];
    var done := Filter(finished, NonBlank);
    assert forall i :: 0 <= i < |done| ==> done[i] in parts;
    var tags := done + [parts[|parts| - 1]];
    assert forall i :: 0 <= i < |done| ==> tags[i] == done[i];
    tags
  }

  /** The tags before the draft are the words of the text before its last space
      that do not trim to "", and no other: a word is lost only when it is blank. */
  lemma ParseTagsKeepsWords(text: string, w: string)
    ensures var parts := Split(text, Space); var tags := ParseTags(text);
      w in tags[..|tags| - 1] <==> w in parts[..|parts| - 1] && NonBlank(w)
  {
    var parts := Split(text, Space);
    var tags := ParseTags(text);
    assert tags[..|tags| - 1] == Filter(parts[..|parts| - 1], NonBlank);
    FilterMembership(parts[..|parts| - 1], NonBlank, w);
  }

  /** The draft is the text after the last space (all of it when there is none). */
  lemma DraftIsLastWord(text: string)
    ensures var tags := ParseTags(text); var d := tags[|tags| - 1];
      |d| <= |text| && d == text[|text| - |d|..] && Space !in d && (|d| < |text| ==> text[|text| - |d| - 1] == Space)
  {
    var tags := ParseTags(text);
    var parts := Split(text, Space);
    assert tags[|tags| - 1] == parts[|parts| - 1];
    SplitLast(text, Space);
  }

  /** The tags input shows `tags.join(' ')`; typing nothing more and re-parsing
      that value gives back the same tags. */
  lemma {:induction false} ParseTagsIdempotent(text: string)
    ensures ParseTags(Join(ParseTags(text), Space)) == ParseTags(text)
  {
    var tags := ParseTags(text);
    SplitJoin(tags, Space);
    var n := |tags|;
    FilterKeepsAll(tags[..n - 1], NonBlank);
    assert tags == tags[..n - 1] + [tags[n - 1]];
  }

  /** One entry of the category `Select`. */
  datatype SelectOption = SelectOption(caption: string, value: string)  // `label` and `value`

  /** `(categoriesData || []).map(cat => ({ label: cat.name, value: cat.name }))` */
  function CategoryOptions(categories: Option<seq<string>>): (options: seq<SelectOption>)
    ensures categories.None? ==> options == []
    ensures categories.Some? ==> |options| == |categories.value|
    ensures categories.Some? ==> forall i :: 0 <= i < |options| ==>
      options[i].caption == options[i].value == categories.value[i]
  {
    match categories
    case None => []
    case Some(names) => seq(|names|, i requires 0 <= i < |names| => SelectOption(names[i], names[i]))
  }

  /** `IStartStream` */
  datatype StartStreamBody = StartStreamBody(
    translationCategory: string, translationName: string, translationNotifyMessage: string, translationTags: seq<string>)

  /** The body built by `handleSubmit`: an absent or empty category is sent as "". */
  function SubmitBody(name: string, notification: string, category: Option<string>, tags: seq<string>): (b: StartStreamBody)
    ensures category.None? ==> b.translationCategory == ""
    ensures category.Some? ==> b.translationCategory == category.value
    ensures b.translationName == name && b.translationNotifyMessage == notification && b.translationTags == tags
  {
    StartStreamBody(if category.Some? && category.value != "" then category.value else "", name, notification, tags)
  }

  class StartStreamForm {
    var name: string
    var notification: string
    var category: Option<string>
    var tags: seq<string>

    /** Both capped texts are under the cap. */
    predicate Valid()
      reads this
    {
      |name| < MaxLength && |notification| < MaxLength
    }

    constructor ()
      ensures name == "" && notification == "" && category == Some("") && tags == []
      ensures Valid()
    {
      name := "";
      notification := "";
      category := Some("");
      tags := [];
    }

    /** The title textarea's `onChange`: too long an edit is dropped. */
    method EditName(value: string)
      requires Valid()
      modifies this`name
      ensures name == if |value| < MaxLength then value else old(name)
      ensures Valid()
    {
      if |value| < MaxLength {
        name := value;
      }
    }

    /** The notification textarea's `onChange`: too long an edit is dropped. */
    method EditNotification(value: string)
      requires Valid()
      modifies this`notification
      ensures notification == if |value| < MaxLength then value else old(notification)
      ensures Valid()
    {
      if |value| < MaxLength {
        notification := value;
      }
    }

    method ChangeCategory(value: string)
      modifies this`category
      ensures category == Some(value)
    {
      category := Some(value);
    }

    /** Only the tags change; the input then shows a value that parses back to them. */
    method HandleTagsChange(text: string)
      modifies this`tags
      ensures tags == ParseTags(text)
      ensures ParseTags(TagsInputValue()) == tags
    {
      tags := ParseTags(text);
      ParseTagsIdempotent(text);
    }

    /** The tags input's `value`. */
    function TagsInputValue(): string
      reads this
    {
      Join(tags, Space)
    }

    /** `handleSubmit`: the body sent to start the stream. */
    method HandleSubmit() returns (body: StartStreamBody)
      ensures body == SubmitBody(name, notification, category, tags)
      ensures Valid() ==> |body.translationName| < MaxLength && |body.translationNotifyMessage| < MaxLength
    {
      body := SubmitBody(name, notification, category, tags);
    }
  }
}

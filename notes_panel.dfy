/**
 * NotesPanel: the floating notes button and its sheet. Notes are added at
 * the front of the list with a type chosen by the user or guessed from
 * keywords; people are invited by e-mail address and removed by id; the
 * button can be dragged but never leaves the window.
 */
module NotesPanel {
  import opened Wrappers
  import opened Text
  import opened Lists
  import opened Types

  /** Words that make an unlabelled note a shopping note (checked first). */
  const ShoppingKeywords: seq<string> := ["buy", "get", "need", "forget"]

  /** Words that make an unlabelled note a recipe note. */
  const RecipeKeywords: seq<string> := ["recipe", "cook", "spicy", "heat"]

  /** The width and height of the round button, in pixels. */
  const ButtonSize := 64

  /** Some keyword of the list occurs in the text. */
  predicate MentionsAny(text: string, keywords: seq<string>) {
    exists k :: k in keywords && Contains(text, k)
  }

  /** `keywords.some(k => text.includes(k))`, one keyword after the other. */
  function AnyIncluded(text: string, keywords: seq<string>): (b: bool)
    ensures b <==> MentionsAny(text, keywords)
  {
    if keywords == [] then false
    else if Contains(text, keywords[0]) then true
    else
      var rest := AnyIncluded(text, keywords[1..]);
      assert forall k :: k in keywords <==> k == keywords[0] || k in keywords[1..];
      rest
  }

  /**
   * The "let AI decide" guess: a shopping note when the lower-cased content
   * mentions a shopping word, otherwise a recipe note when it mentions a
   * cooking word, otherwise a general note.
   */
  function InferNoteType(content: string): (t: NoteType)
    ensures t == ShoppingNote <==> MentionsAny(Lower(content), ShoppingKeywords)
    ensures t == RecipeNoteType <==>
      !MentionsAny(Lower(content), ShoppingKeywords) && MentionsAny(Lower(content), RecipeKeywords)
    ensures t == General <==>
      !MentionsAny(Lower(content), ShoppingKeywords) && !MentionsAny(Lower(content), RecipeKeywords)
  {
    var c := Lower(content);
    if AnyIncluded(c, ShoppingKeywords) then ShoppingNote
    else if AnyIncluded(c, RecipeKeywords) then RecipeNoteType
    else General
  }

  /** "forget" contains "get", so the last shopping keyword never changes the guess. */
  lemma ForgetIsRedundant(content: string)
    ensures MentionsAny(Lower(content), ShoppingKeywords) <==>
      MentionsAny(Lower(content), ["buy", "get", "need"])
  {
    var c := Lower(content);
    if Contains(c, "forget") {
      ContainsInner(c, "forget", 3, 6);
      assert "forget"[3..6] == "get";
      assert "get" in ["buy", "get", "need"];
    }
  }

  /**
   * The note handleAddNote creates: the user's type when one is selected,
   * the guess otherwise; attached to the current recipe only when it is a
   * recipe note.
   */
  function NewNote(content: string, selected: Option<NoteType>, currentRecipeId: Option<string>,
                   id: string, now: int): (n: RecipeNote)
    ensures n.content == content && n.title == "" && n.id == id
    ensures selected.Some? ==> n.noteType == selected.value
    ensures selected.None? ==> n.noteType == InferNoteType(content)
    ensures n.recipeId.Some? ==> n.noteType == RecipeNoteType && n.recipeId == currentRecipeId
    ensures n.noteType == RecipeNoteType ==> n.recipeId == currentRecipeId
    ensures n.createdAt == now && n.updatedAt == now
    ensures n.userId == "current-user" && n.userName == "You"
  {
    var t := if selected.Some? then selected.value else InferNoteType(content);
    RecipeNote(id, if t == RecipeNoteType then currentRecipeId else None, "", content, t,
               now, now, "current-user", "You")
  }

  /** The emoji shown beside a note of each type. */
  function NoteIcon(t: NoteType): string {
    match t
    case RecipeNoteType => "\U{1F373}"
    case ShoppingNote => "\U{1F6D2}"
    case General => "\U{1F4A1}"
  }

  /** Each note type has its own icon. */
  lemma NoteIconsDistinct(t: NoteType, u: NoteType)
    ensures NoteIcon(t) == NoteIcon(u) <==> t == u
  {
  }

  datatype Person = Person(id: string, name: string, email: string)

  /** `email.split('@')[0]`: everything before the first '@'. */
  function NameOfEmail(email: string): (name: string)
    ensures StartsWith(email, name)
    ensures '@' !in name
    ensures |name| < |email| ==> email[|name|] == '@'
    ensures '@' !in email ==> name == email
  {
    NameIsPrefix(email);
    Split(email, '@')[0]
  }

  lemma {:induction false} NameIsPrefix(email: string)
    ensures var name := Split(email, '@')[0];
      StartsWith(email, name) && (|name| < |email| ==> email[|name|] == '@')
  {
    if email != [] {
      NameIsPrefix(email[1..]);
    }
  }

  /** What handleAddPerson does with the typed address. */
  datatype InviteOutcome = EmptyAddress | InvalidAddress | Invited

  datatype Point = Point(x: int, y: int)

  /** `Math.max(0, Math.min(v, viewport - 64))`. */
  function ClampToViewport(v: int, viewport: int): (r: int)
    ensures 0 <= r
    ensures viewport >= ButtonSize ==> r <= viewport - ButtonSize
    ensures 0 <= v <= viewport - ButtonSize ==> r == v
    ensures v < 0 || viewport < ButtonSize ==> r == 0
    ensures v > viewport - ButtonSize && viewport >= ButtonSize ==> r == viewport - ButtonSize
  {
    var upper := if v < viewport - ButtonSize then v else viewport - ButtonSize;
    if upper < 0 then 0 else upper
  }

  /** The three notes the panel starts with, `now` being the time it is mounted. */
  function SeedNotes(now: int): seq<RecipeNote> {
    [ RecipeNote("1", None, "", "Don't forget cilantro", ShoppingNote,
                 now - 3 * 3600000, now - 3 * 3600000, "current-user", "You"),
      RecipeNote("2", None, "", "Korean eggplant next week", General,
                 now - 2 * 3600000, now - 2 * 3600000, "partner", "Partner"),
      RecipeNote("3", None, "", "Less spicy", RecipeNoteType,
                 now - 1 * 3600000, now - 1 * 3600000, "partner", "Partner") ]
  }

  class NotesPanel {
    const currentRecipeId: Option<string>
    var isOpen: bool
    var notes: seq<RecipeNote>
    var newNoteContent: string
    var selectedType: Option<NoteType>
    var showShareDialog: bool
    var sharedWith: seq<Person>
    var newPersonEmail: string
    var position: Point
    var isDragging: bool
    var dragStart: Point

    /** The initial state; `now` and the window size are read once at mount. */
    constructor (currentRecipeId: Option<string>, now: int, innerWidth: int, innerHeight: int)
      ensures this.currentRecipeId == currentRecipeId
      ensures !isOpen && !showShareDialog && !isDragging
      ensures notes == SeedNotes(now)
      ensures newNoteContent == "" && selectedType == None && newPersonEmail == ""
      ensures sharedWith == [Person("1", "Partner", "partner@email.com")]
      ensures position == Point(innerWidth - 100, innerHeight - 100) && dragStart == Point(0, 0)
    {
      this.currentRecipeId := currentRecipeId;
      isOpen, showShareDialog, isDragging := false, false, false;
      notes := SeedNotes(now);
      newNoteContent, selectedType, newPersonEmail := "", None, "";
      sharedWith := [Person("1", "Partner", "partner@email.com")];
      position := Point(innerWidth - 100, innerHeight - 100);
      dragStart := Point(0, 0);
    }

    method SetNoteContent(text: string)
      modifies this
      ensures newNoteContent == text
      ensures notes == old(notes) && selectedType == old(selectedType) && sharedWith == old(sharedWith)
      ensures isOpen == old(isOpen) && showShareDialog == old(showShareDialog) && newPersonEmail == old(newPersonEmail)
      ensures position == old(position) && isDragging == old(isDragging) && dragStart == old(dragStart)
    {
      newNoteContent := text;
    }

    /** A type button: selects its type, or deselects it when it is already selected. */
    method ClickTypeButton(t: NoteType)
      modifies this
      ensures selectedType == if old(selectedType) == Some(t) then None else Some(t)
      ensures notes == old(notes) && newNoteContent == old(newNoteContent)
      ensures isOpen == old(isOpen) && showShareDialog == old(showShareDialog)
      ensures sharedWith == old(sharedWith) && newPersonEmail == old(newPersonEmail)
      ensures position == old(position) && isDragging == old(isDragging) && dragStart == old(dragStart)
    {
      selectedType := if selectedType == Some(t) then None else Some(t);
    }

    /** The "Let AI decide" button. */
    method ClearType()
      modifies this
      ensures selectedType == None
      ensures notes == old(notes) && newNoteContent == old(newNoteContent)
      ensures isOpen == old(isOpen) && showShareDialog == old(showShareDialog)
      ensures sharedWith == old(sharedWith) && newPersonEmail == old(newPersonEmail)
      ensures position == old(position) && isDragging == old(isDragging) && dragStart == old(dragStart)
    {
      selectedType := None;
    }

    /**
     * handleAddNote, with the new note's id and timestamp as parameters.
     * Blank content is refused and changes nothing; otherwise the new note is
     * put in front of the others and the draft and the type are reset.
     */
    method AddNote(id: string, now: int) returns (added: bool)
      modifies this
      ensures added <==> !IsBlank(old(newNoteContent))
      ensures added ==> notes == [NewNote(old(newNoteContent), old(selectedType), currentRecipeId, id, now)] + old(notes)
      ensures added ==> newNoteContent == "" && selectedType == None
      ensures !added ==> notes == old(notes) && newNoteContent == old(newNoteContent) && selectedType == old(selectedType)
      ensures sharedWith == old(sharedWith) && newPersonEmail == old(newPersonEmail) && position == old(position)
      ensures isOpen == old(isOpen) && showShareDialog == old(showShareDialog)
      ensures isDragging == old(isDragging) && dragStart == old(dragStart)
    {
      if Trim(newNoteContent) == [] {
        return false;
      }
      var note := NewNote(newNoteContent, selectedType, currentRecipeId, id, now);
      notes := [note] + notes;
      newNoteContent := "";
      selectedType := None;
      added := true;
    }

    method SetPersonEmail(text: string)
      modifies this
      ensures newPersonEmail == text && sharedWith == old(sharedWith) && notes == old(notes)
      ensures isOpen == old(isOpen) && newNoteContent == old(newNoteContent) && selectedType == old(selectedType)
      ensures showShareDialog == old(showShareDialog)
      ensures position == old(position) && isDragging == old(isDragging) && dragStart == old(dragStart)
    {
      newPersonEmail := text;
    }

    /**
     * handleAddPerson, with the new person's id as a parameter: a blank
     * address or one without '@' is refused; otherwise the person, named by
     * the part of the address before its first '@', joins the end of the list
     * and the input is cleared.
     */
    method AddPerson(id: string) returns (outcome: InviteOutcome)
      modifies this
      ensures outcome == EmptyAddress <==> IsBlank(old(newPersonEmail))
      ensures outcome == InvalidAddress <==> !IsBlank(old(newPersonEmail)) && '@' !in old(newPersonEmail)
      ensures outcome == Invited ==>
        sharedWith == old(sharedWith) + [Person(id, NameOfEmail(old(newPersonEmail)), old(newPersonEmail))]
        && newPersonEmail == ""
      ensures outcome != Invited ==> sharedWith == old(sharedWith) && newPersonEmail == old(newPersonEmail)
      ensures notes == old(notes) && newNoteContent == old(newNoteContent)
      ensures isOpen == old(isOpen) && selectedType == old(selectedType) && showShareDialog == old(showShareDialog)
      ensures position == old(position) && isDragging == old(isDragging) && dragStart == old(dragStart)
    {
      if Trim(newPersonEmail) == [] {
        return EmptyAddress;
      }
      if '@' !in newPersonEmail {
        return InvalidAddress;
      }
      sharedWith := sharedWith + [Person(id, NameOfEmail(newPersonEmail), newPersonEmail)];
      newPersonEmail := "";
      outcome := Invited;
    }

    /** handleRemovePerson: every entry with that id goes, the others keep their order. */
    method RemovePerson(id: string)
      modifies this
      ensures sharedWith == Filter(old(sharedWith), (p: Person) => p.id != id)
      ensures forall p :: p in sharedWith <==> p in old(sharedWith) && p.id != id
      ensures notes == old(notes) && newPersonEmail == old(newPersonEmail)
      ensures isOpen == old(isOpen) && newNoteContent == old(newNoteContent) && selectedType == old(selectedType)
      ensures showShareDialog == old(showShareDialog)
      ensures position == old(position) && isDragging == old(isDragging) && dragStart == old(dragStart)
    {
      sharedWith := Filter(sharedWith, (p: Person) => p.id != id);
    }

    /** handleMouseDown: start dragging, remembering where in the button it was grabbed. */
    method MouseDown(clientX: int, clientY: int)
      modifies this
      ensures isDragging && dragStart == Point(clientX - position.x, clientY - position.y)
      ensures position == old(position) && notes == old(notes)
      ensures isOpen == old(isOpen) && newNoteContent == old(newNoteContent) && selectedType == old(selectedType)
      ensures showShareDialog == old(showShareDialog) && sharedWith == old(sharedWith) && newPersonEmail == old(newPersonEmail)
    {
      isDragging := true;
      dragStart := Point(clientX - position.x, clientY - position.y);
    }

    /**
     * handleMouseMove: while dragging, the button follows the pointer but is
     * clamped so that it stays inside the window and never goes negative.
     */
    method MouseMove(clientX: int, clientY: int, innerWidth: int, innerHeight: int)
      modifies this
      ensures old(isDragging) ==> position == Point(ClampToViewport(clientX - dragStart.x, innerWidth),
                                                    ClampToViewport(clientY - dragStart.y, innerHeight))
      ensures old(isDragging) ==> 0 <= position.x && 0 <= position.y
      ensures !old(isDragging) ==> position == old(position)
      ensures isDragging == old(isDragging) && dragStart == old(dragStart) && notes == old(notes)
      ensures isOpen == old(isOpen) && newNoteContent == old(newNoteContent) && selectedType == old(selectedType)
      ensures showShareDialog == old(showShareDialog) && sharedWith == old(sharedWith) && newPersonEmail == old(newPersonEmail)
    {
      if isDragging {
        position := Point(ClampToViewport(clientX - dragStart.x, innerWidth),
                          ClampToViewport(clientY - dragStart.y, innerHeight));
      }
    }

    method MouseUp()
      modifies this
      ensures !isDragging && position == old(position) && notes == old(notes)
      ensures isOpen == old(isOpen) && newNoteContent == old(newNoteContent) && selectedType == old(selectedType)
      ensures showShareDialog == old(showShareDialog) && sharedWith == old(sharedWith) && newPersonEmail == old(newPersonEmail)
      ensures dragStart == old(dragStart)
    {
      isDragging := false;
    }

    /** A click on the button opens the sheet unless it ended a drag. */
    method ClickButton()
      modifies this
      ensures isOpen == (old(isOpen) || !isDragging)
      ensures notes == old(notes) && position == old(position) && isDragging == old(isDragging)
      ensures newNoteContent == old(newNoteContent) && selectedType == old(selectedType)
      ensures showShareDialog == old(showShareDialog) && sharedWith == old(sharedWith) && newPersonEmail == old(newPersonEmail)
      ensures dragStart == old(dragStart)
    {
      if !isDragging {
        isOpen := true;
      }
    }

    /** The sheet's close button and its open-change callback. */
    method SetOpen(open: bool)
      modifies this
      ensures isOpen == open
      ensures notes == old(notes) && position == old(position) && isDragging == old(isDragging)
      ensures newNoteContent == old(newNoteContent) && selectedType == old(selectedType)
      ensures showShareDialog == old(showShareDialog) && sharedWith == old(sharedWith) && newPersonEmail == old(newPersonEmail)
      ensures dragStart == old(dragStart)
    {
      isOpen := open;
    }

    /** The sheet's "Share" button opens the share dialog; its open-change callback sets it. */
    method SetShareDialog(open: bool)
      modifies this
      ensures showShareDialog == open
      ensures notes == old(notes) && position == old(position) && isDragging == old(isDragging)
      ensures newNoteContent == old(newNoteContent) && selectedType == old(selectedType)
      ensures isOpen == old(isOpen) && sharedWith == old(sharedWith) && newPersonEmail == old(newPersonEmail)
      ensures dragStart == old(dragStart)
    {
      showShareDialog := open;
    }
  }
}

/** The content script injected into the chat pages: platform detection, input
    location, prompt insertion and the floating "Extract Notes" button. */
module Content {
  import opened Wrappers
  import opened Text
  import opened Storage

  /** The supported chat hosts. JavaScript's `null` platform is `None`. */
  datatype Platform = Claude | ChatGpt | Gemini

  const ClaudeHost := "claude.ai"
  const ChatGptHost := "chatgpt.com"
  const GeminiHost := "gemini.google.com"

  /** The platform the page's host name belongs to, tried in the fixed order
      claude.ai, chatgpt.com, gemini.google.com. */
  function DetectPlatform(host: string): (p: Option<Platform>)
    ensures Includes(host, ClaudeHost) ==> p == Some(Claude)
    ensures p == Some(ChatGpt) <==> !Includes(host, ClaudeHost) && Includes(host, ChatGptHost)
    ensures p == Some(Gemini) <==>
              !Includes(host, ClaudeHost) && !Includes(host, ChatGptHost) && Includes(host, GeminiHost)
    ensures p == None <==>
              !Includes(host, ClaudeHost) && !Includes(host, ChatGptHost) && !Includes(host, GeminiHost)
  {
    if Includes(host, ClaudeHost) then Some(Claude)
    else if Includes(host, ChatGptHost) then Some(ChatGpt)
    else if Includes(host, GeminiHost) then Some(Gemini)
    else None
  }

  /** A host on the older OpenAI domain is not recognised: "chatgpt.com" does not occur in it. */
  lemma OldOpenAiHostUnsupported(host: string)
    requires host == "chat.openai.com"
    ensures DetectPlatform(host) == None
  {
    MissingCharExcludes(host, ClaudeHost, 'l');
    MissingCharExcludes(host, ChatGptHost, 'g');
    MissingCharExcludes(host, GeminiHost, 'g');
  }

  /** Whatever else a host contains, claude.ai decides: a host naming both
      claude.ai and chatgpt.com is Claude. */
  lemma ClaudeTakesPriority(host: string)
    requires Includes(host, ClaudeHost) && Includes(host, ChatGptHost)
    ensures DetectPlatform(host) == Some(Claude)
  {
  }

  /** Without claude.ai, chatgpt.com decides over gemini.google.com. */
  lemma ChatGptBeforeGemini(host: string)
    requires !Includes(host, ClaudeHost) && Includes(host, ChatGptHost) && Includes(host, GeminiHost)
    ensures DetectPlatform(host) == Some(ChatGpt)
  {
  }

  /** Such hosts exist: "gemini.google.com.chatgpt.com" names Gemini and ChatGPT
      but not Claude, and is classified as ChatGPT. */
  lemma MixedHostIsChatGpt(host: string)
    requires host == "gemini.google.com.chatgpt.com"
    ensures Includes(host, GeminiHost) && DetectPlatform(host) == Some(ChatGpt)
  {
    MissingCharExcludes(host, ClaudeHost, 'u');
    assert OccursAt(host, ChatGptHost, 18);
    assert OccursAt(host, GeminiHost, 0);
  }

  // ---------------------------------------------------------------- the page

  /** Elements are named by an identity; the page's heap maps identities to elements. */
  type ElementId = nat

  /** What `document.querySelector(selector)` returns for each selector that
      matches something; a selector missing from the map yields `null`. */
  type Dom = map<string, ElementId>

  const EditableDiv := "div[contenteditable=\"true\"]"
  const AnyTextarea := "textarea"
  const PromptTextarea := "#prompt-textarea"
  const QuillEditor := ".ql-editor"

  /** The per-platform selector table: the primary selector, then the fallback. */
  function Selectors(p: Platform): (sels: seq<string>)
    ensures |sels| == 2
  {
    match p
    case Claude => [EditableDiv, AnyTextarea]
    case ChatGpt => [PromptTextarea, AnyTextarea]
    case Gemini => [QuillEditor, EditableDiv]
  }

  /** The element matched by the first selector of `sels` that matches anything. */
  function FirstMatch(dom: Dom, sels: seq<string>): (r: Option<ElementId>)
    ensures r.None? <==> forall k :: 0 <= k < |sels| ==> sels[k] !in dom
    ensures r.Some? ==> exists k :: 0 <= k < |sels| && sels[k] in dom && r.value == dom[sels[k]]
                                  && forall j :: 0 <= j < k ==> sels[j] !in dom
  {
    if sels == [] then None
    else if sels[0] in dom then Some(dom[sels[0]])
    else
      var rest := FirstMatch(dom, sels[1..]);
      assert forall k :: 0 <= k < |sels| - 1 ==> sels[1..][k] == sels[k + 1];
      if rest.Some? then
        var k :| 0 <= k < |sels| - 1 && sels[1..][k] in dom && rest.value == dom[sels[1..][k]]
                 && forall j :: 0 <= j < k ==> sels[1..][j] !in dom;
        assert sels[k + 1] in dom && rest.value == dom[sels[k + 1]];
        rest
      else
        rest
  }

  /** `getInputElement(platform)`: the primary selector's match if there is one,
      else the fallback's, else `null`. */
  function GetInputElement(dom: Dom, p: Platform): (r: Option<ElementId>)
    ensures r == FirstMatch(dom, Selectors(p))
    ensures r.Some? ==> r.value in dom.Values
  {
    var sels := Selectors(p);
    var primary := Find(dom, sels[0]);
    if primary.Some? then primary else Find(dom, sels[1])
  }

  /** On a page whose only input is a plain textarea, Claude and ChatGPT fall back
      to it, but Gemini's table does not list it, so nothing is found. */
  lemma TextareaOnlyPage(dom: Dom, id: ElementId)
    requires dom == map[AnyTextarea := id]
    ensures GetInputElement(dom, Claude) == Some(id)
    ensures GetInputElement(dom, ChatGpt) == Some(id)
    ensures GetInputElement(dom, Gemini) == None
  {
  }

  /** A primary match wins over the fallback, whichever element the fallback names. */
  lemma PrimaryWins(dom: Dom, p: Platform)
    requires Selectors(p)[0] in dom
    ensures GetInputElement(dom, p) == Some(dom[Selectors(p)[0]])
  {
  }

  /** How one attempt to insert the prompt ends. */
  datatype Outcome = Unsupported | NotFound | Inserted(id: ElementId)

  /** Which branch `insertPrompt` takes on a page with this host and document:
      an unsupported host stops before any lookup, a missing input stops after it. */
  function Resolve(host: string, dom: Dom): (o: Outcome)
    ensures o == Unsupported <==> DetectPlatform(host) == None
    ensures o == NotFound <==>
              DetectPlatform(host).Some? && GetInputElement(dom, DetectPlatform(host).value) == None
    ensures o.Inserted? ==> DetectPlatform(host).Some?
                            && Some(o.id) == GetInputElement(dom, DetectPlatform(host).value)
                            && o.id in dom.Values
  {
    match DetectPlatform(host)
    case None => Unsupported
    case Some(p) =>
      match GetInputElement(dom, p)
      case None => NotFound
      case Some(id) => Inserted(id)
  }

  // ------------------------------------------------------------- the elements

  const TextareaTag := "TEXTAREA"

  /** The fields of an element the extension reads or writes. */
  datatype Element = Element(tag: string, value: string, textContent: string)

  /** The text a user sees in the element: `value` for a textarea, `textContent` otherwise. */
  function Shown(e: Element): string
  {
    if e.tag == TextareaTag then e.value else e.textContent
  }

  /** The element after `text` is assigned into it, the field chosen by its tag. */
  function Written(e: Element, text: string): (r: Element)
    ensures r.tag == e.tag && Shown(r) == text
    ensures e.tag == TextareaTag ==> r.textContent == e.textContent
    ensures e.tag != TextareaTag ==> r.value == e.value
  {
    if e.tag == TextareaTag then e.(value := text) else e.(textContent := text)
  }

  /** Writing assigns rather than appends: whatever was written before, the last
      write alone decides the element. */
  lemma WrittenOverwrites(e: Element, earlier: string, text: string)
    ensures Written(Written(e, earlier), text) == Written(e, text)
  {
  }

  /** The element after `n` writes of the same text. */
  function WrittenTimes(e: Element, text: string, n: nat): Element
  {
    if n == 0 then e else Written(WrittenTimes(e, text, n - 1), text)
  }

  /** Any number of insertions of the same text leave exactly that text, once. */
  lemma {:induction false} WrittenTimesIdempotent(e: Element, text: string, n: nat)
    requires n >= 1
    ensures WrittenTimes(e, text, n) == Written(e, text)
    ensures Shown(WrittenTimes(e, text, n)) == text
  {
    if n > 1 {
      WrittenTimesIdempotent(e, text, n - 1);
      WrittenOverwrites(e, text, text);
    }
  }

  // ----------------------------------------------------------- the button ids

  const ButtonId := "learning-notes-btn"

  /** How many elements carry id `x`. */
  function Occurrences(ids: seq<string>, x: string): nat
  {
    if ids == [] then 0 else (if ids[0] == x then 1 else 0) + Occurrences(ids[1..], x)
  }

  lemma {:induction false} OccurrencesZero(ids: seq<string>, x: string)
    ensures Occurrences(ids, x) == 0 <==> x !in ids
  {
    if ids != [] {
      OccurrencesZero(ids[1..], x);
      assert ids == [ids[0]] + ids[1..];
    }
  }

  lemma {:induction false} OccurrencesAppend(ids: seq<string>, x: string, y: string)
    ensures Occurrences(ids + [y], x) == Occurrences(ids, x) + (if x == y then 1 else 0)
  {
    if ids != [] {
      assert (ids + [y])[1..] == ids[1..] + [y];
      OccurrencesAppend(ids[1..], x, y);
    }
  }

  /** The document's ids after `createExtractButton`: the button is appended only
      when no element with its id exists. */
  function WithButton(ids: seq<string>): (r: seq<string>)
    ensures ButtonId in ids ==> r == ids
    ensures ButtonId !in ids ==> r == ids + [ButtonId]
    ensures ButtonId in r && ids <= r && |r| <= |ids| + 1
    ensures Occurrences(ids, ButtonId) <= 1 ==> Occurrences(r, ButtonId) == 1
    ensures forall x :: x != ButtonId ==> Occurrences(r, x) == Occurrences(ids, x)
  {
    OccurrencesZero(ids, ButtonId);
    forall x | x != ButtonId
      ensures Occurrences(ids + [ButtonId], x) == Occurrences(ids, x)
    {
      OccurrencesAppend(ids, x, ButtonId);
    }
    if ButtonId in ids then ids
    else
      OccurrencesAppend(ids, ButtonId, ButtonId);
      ids + [ButtonId]
  }

  /** Re-running the button creation (as the page observer does) changes nothing. */
  lemma WithButtonIdempotent(ids: seq<string>)
    ensures WithButton(WithButton(ids)) == WithButton(ids)
  {
  }

  // ----------------------------------------------------------------- the page

  /** A chat page as the content script sees it. */
  class Page {
    /** `window.location.hostname`. */
    var host: string
    /** The result of `document.querySelector` for each selector. */
    var dom: Dom
    /** The page's elements, by identity. */
    var elements: map<ElementId, Element>
    /** The `id` attributes of the document's elements, in document order. */
    var elementIds: seq<string>
    /** How many bubbling `input` events have been dispatched. */
    var inputEvents: nat

    /** Every element a selector matches exists. */
    ghost predicate Valid()
      reads this
    {
      dom.Values <= elements.Keys
    }

    constructor (host: string, dom: Dom, elements: map<ElementId, Element>, elementIds: seq<string>)
      requires dom.Values <= elements.Keys
      ensures Valid()
      ensures this.host == host && this.dom == dom && this.elements == elements
      ensures this.elementIds == elementIds && inputEvents == 0
    {
      this.host := host;
      this.dom := dom;
      this.elements := elements;
      this.elementIds := elementIds;
      inputEvents := 0;
    }

    /** `insertPrompt()`: detect the platform, locate its input, overwrite the input
        with the prompt, announce the change, then count one use. On an unsupported
        host or when no input is found, nothing changes. */
    method InsertPrompt(store: SyncStorage) returns (outcome: Outcome)
      requires Valid()
      modifies this`elements, this`inputEvents, store
      ensures Valid()
      ensures outcome == Resolve(host, dom)
      ensures outcome.Inserted? ==>
                elements == old(elements)[outcome.id := Written(old(elements)[outcome.id], UniversalPrompt)]
                && inputEvents == old(inputEvents) + 1
                && store.items == Incremented(old(store.items))
      ensures !outcome.Inserted? ==>
                elements == old(elements) && inputEvents == old(inputEvents)
                && store.items == old(store.items)
    {
      var platform := DetectPlatform(host);
      if platform.None? {
        return Unsupported;
      }
      var input := GetInputElement(dom, platform.value);
      if input.None? {
        return NotFound;
      }
      var id := input.value;
      var e := elements[id];
      if e.tag == TextareaTag {
        elements := elements[id := e.(value := UniversalPrompt)];
      } else {
        elements := elements[id := e.(textContent := UniversalPrompt)];
      }
      inputEvents := inputEvents + 1;
      var _ := store.IncrementUsage();
      outcome := Inserted(id);
    }

    /** `createExtractButton()`: append the floating button unless an element with
        its id already exists. */
    method CreateExtractButton()
      modifies this`elementIds
      ensures elementIds == WithButton(old(elementIds))
    {
      if ButtonId in elementIds {
        return;
      }
      elementIds := elementIds + [ButtonId];
    }
  }

  /** The prompt template. Only its opening sentence is kept: nothing in the
      model depends on its contents. */
  const UniversalPrompt := "Please create a comprehensive learning notes summary of our entire conversation and provide it as a downloadable markdown file."

  /** Two insertions in a row: the input shows the prompt exactly once and the
      counter went up by two. */
  method InsertTwice(page: Page, store: SyncStorage)
    requires page.Valid()
    requires Resolve(page.host, page.dom).Inserted?
    modifies page`elements, page`inputEvents, store
    ensures page.Valid()
    ensures var id := Resolve(page.host, page.dom).id;
            Shown(page.elements[id]) == UniversalPrompt
            && page.elements == old(page.elements)[id := Written(old(page.elements)[id], UniversalPrompt)]
    ensures Lookup(store.items, UsageCount) == Lookup(old(store.items), UsageCount) + 2
    ensures store.items == Incremented(Incremented(old(store.items)))
    ensures page.inputEvents == old(page.inputEvents) + 2
  {
    var first := page.InsertPrompt(store);
    var second := page.InsertPrompt(store);
    WrittenOverwrites(old(page.elements)[first.id], UniversalPrompt, UniversalPrompt);
  }
}

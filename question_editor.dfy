/**
 * The question-bank editor page (js/question-editor.js): a list of questions
 * with a difficulty tag and an ordering key, filtered by difficulty and by a
 * search term, counted per difficulty, and changed by adding, replacing,
 * deleting and duplicating entries. Each remote write is modelled as if it
 * succeeded; only its effect on the page's own list is kept.
 */
module QuestionBank {
  import opened Common
  import opened Seqs
  import opened Text

  datatype Question = Question(id: string, text: string, options: seq<string>, correct: nat, difficulty: string, order: int)

  /** One element of the `exportJSON` download: the question without id and order. */
  datatype ExportedQuestion = ExportedQuestion(text: string, options: seq<string>, correct: nat, difficulty: string)

  const AllDifficulties: string := "all"
  const Easy: string := "easy"
  const Medium: string := "medium"
  const Hard: string := "hard"
  const CopySuffix: string := " (نسخة)"
  /** Number of answer fields in the question form. */
  const OptionCount: nat := 4

  /** The `filterQuestions` test for one question; `term` is already lower-cased. */
  predicate Matches(q: Question, difficulty: string, term: string)
  {
    && (difficulty == AllDifficulties || q.difficulty == difficulty)
    && (term == [] || Contains(ToLower(q.text), term)
        || exists i :: 0 <= i < |q.options| && Contains(ToLower(q.options[i]), term))
  }

  function Matcher(difficulty: string, term: string): Question -> bool
  {
    (q: Question) => Matches(q, difficulty, term)
  }

  /** `filterQuestions` with the selected difficulty and the raw search box text. */
  function FilterQuestions(questions: seq<Question>, difficulty: string, search: string): seq<Question>
  {
    Filter(questions, Matcher(difficulty, ToLower(search)))
  }

  /**
   * The filtered list keeps, in their original order, exactly the questions
   * whose difficulty matches (or the filter is "all") and whose lower-cased
   * text or some lower-cased option contains the lower-cased search term (or
   * the term is empty).
   */
  lemma FilterQuestionsCorrect(questions: seq<Question>, difficulty: string, search: string)
    ensures IsSubsequence(FilterQuestions(questions, difficulty, search), questions)
    ensures forall q :: q in FilterQuestions(questions, difficulty, search) <==>
      q in questions && Matches(q, difficulty, ToLower(search))
  {
    var p := Matcher(difficulty, ToLower(search));
    FilterIsSubsequence(questions, p);
    forall q ensures q in FilterQuestions(questions, difficulty, search) <==> q in questions && p(q) {
      FilterMembership(questions, p, q);
    }
  }

  /** With difficulty "all" and an empty search box every question is shown. */
  lemma FilterShowsAll(questions: seq<Question>)
    ensures FilterQuestions(questions, AllDifficulties, []) == questions
  {
    FilterAll(questions, Matcher(AllDifficulties, ToLower([])));
  }

  function HasDifficulty(difficulty: string): Question -> bool
  {
    (q: Question) => q.difficulty == difficulty
  }

  function HasOtherDifficulty(): Question -> bool
  {
    (q: Question) => q.difficulty != Easy && q.difficulty != Medium && q.difficulty != Hard
  }

  /** `questions.filter(q => q.difficulty === difficulty).length`. */
  function CountOf(questions: seq<Question>, difficulty: string): nat
  {
    |Filter(questions, HasDifficulty(difficulty))|
  }

  /** The four numbers `updateStats` shows. */
  datatype Stats = Stats(total: nat, easy: nat, medium: nat, hard: nat)

  function StatsOf(questions: seq<Question>): Stats
  {
    Stats(|questions|, CountOf(questions, Easy), CountOf(questions, Medium), CountOf(questions, Hard))
  }

  /**
   * The per-difficulty counts and the count of questions with any other tag
   * add up to the total, so the three shown counts never exceed it.
   */
  lemma {:induction false} StatsPartition(questions: seq<Question>)
    ensures CountOf(questions, Easy) + CountOf(questions, Medium) + CountOf(questions, Hard)
          + |Filter(questions, HasOtherDifficulty())| == |questions|
    ensures StatsOf(questions).easy + StatsOf(questions).medium + StatsOf(questions).hard <= StatsOf(questions).total
  {
    if questions != [] {
      StatsPartition(questions[1..]);
    }
  }

  /** The validated contents of the question form. */
  datatype Form = Form(text: string, options: seq<string>, correct: nat, difficulty: string)

  /** Why `saveQuestion` refused the form, in the order the checks run. */
  datatype FormError = MissingOption(index: nat) | MissingCorrect | MissingDifficulty | MissingText

  /**
   * The option loop of `saveQuestion`: the four fields are trimmed in order and
   * the loop stops at the first blank one, reporting its position.
   */
  method ReadOptions(rawOptions: seq<string>) returns (r: Result<seq<string>, nat>)
    ensures r.Ok? <==> AllFilled(TrimAll(rawOptions))
    ensures r.Ok? ==> r.value == TrimAll(rawOptions)
    ensures r.Err? ==>
      && r.error < |rawOptions| && TrimAll(rawOptions)[r.error] == []
      && forall j :: 0 <= j < r.error ==> TrimAll(rawOptions)[j] != []
  {
    ghost var trimmed := TrimAll(rawOptions);
    var options: seq<string> := [];
    var i := 0;
    while i < |rawOptions|
      invariant 0 <= i <= |rawOptions|
      invariant options == trimmed[..i]
      invariant forall j :: 0 <= j < i ==> trimmed[j] != []
    {
      var value := Trim(rawOptions[i]);
      assert value == trimmed[i];
      if value == [] {
        assert !AllFilled(trimmed) by {
          assert trimmed[i] == [];
        }
        return Err(i);
      }
      options := options + [value];
      i := i + 1;
    }
    assert options == trimmed;
    assert AllFilled(trimmed);
    return Ok(options);
  }

  /**
   * The checks of `saveQuestion`: first the options (see `ReadOptions`), then a
   * correct answer must be chosen, then a difficulty, and last the trimmed
   * question text must be non-blank. An accepted form has exactly four trimmed
   * options.
   */
  method ReadForm(rawText: string, rawOptions: seq<string>, correct: Option<nat>, difficulty: Option<string>)
    returns (r: Result<Form, FormError>)
    requires |rawOptions| == OptionCount
    ensures r.Ok? <==> AllFilled(TrimAll(rawOptions)) && correct.Some? && difficulty.Some? && Trim(rawText) != []
    ensures r.Ok? ==> r.value == Form(Trim(rawText), TrimAll(rawOptions), correct.value, difficulty.value)
    ensures r.Ok? ==> |r.value.options| == OptionCount
    ensures r.Err? && r.error.MissingOption? ==>
      && r.error.index < OptionCount && TrimAll(rawOptions)[r.error.index] == []
      && forall j :: 0 <= j < r.error.index ==> TrimAll(rawOptions)[j] != []
    ensures !AllFilled(TrimAll(rawOptions)) ==> r.Err? && r.error.MissingOption?
    ensures r == Err(MissingCorrect) <==> AllFilled(TrimAll(rawOptions)) && correct.None?
    ensures r == Err(MissingDifficulty) <==> AllFilled(TrimAll(rawOptions)) && correct.Some? && difficulty.None?
    ensures r == Err(MissingText) <==>
      AllFilled(TrimAll(rawOptions)) && correct.Some? && difficulty.Some? && Trim(rawText) == []
  {
    var options := ReadOptions(rawOptions);
    if options.Err? {
      return Err(MissingOption(options.error));
    }
    if correct.None? {
      return Err(MissingCorrect);
    }
    if difficulty.None? {
      return Err(MissingDifficulty);
    }
    var text := Trim(rawText);
    if text == [] {
      return Err(MissingText);
    }
    return Ok(Form(text, options.value, correct.value, difficulty.value));
  }

  /** `duplicateQuestion`'s record: same options, answer and difficulty, marked text, next order. */
  function DuplicateOf(q: Question, id: string, order: int): (d: Question)
    ensures d.options == q.options && d.correct == q.correct && d.difficulty == q.difficulty
    ensures |d.text| == |q.text| + |CopySuffix|
    ensures d.text[..|q.text|] == q.text && d.text[|q.text|..] == CopySuffix
    ensures d.order == order && d.id == id
  {
    Question(id, q.text + CopySuffix, q.options, q.correct, q.difficulty, order)
  }

  function ExportOf(q: Question): ExportedQuestion
  {
    ExportedQuestion(q.text, q.options, q.correct, q.difficulty)
  }

  /** The `exportJSON` projection: one record per question, in list order, without id and order. */
  function ExportData(questions: seq<Question>): (r: seq<ExportedQuestion>)
    ensures |r| == |questions|
    ensures forall i :: 0 <= i < |questions| ==>
      r[i].text == questions[i].text && r[i].options == questions[i].options
      && r[i].correct == questions[i].correct && r[i].difficulty == questions[i].difficulty
  {
    if questions == [] then [] else [ExportOf(questions[0])] + ExportData(questions[1..])
  }

  /** Two question lists with the same text, options, answers and tags export alike. */
  lemma {:induction false} ExportIgnoresIdAndOrder(a: seq<Question>, b: seq<Question>)
    requires |a| == |b|
    requires forall i :: 0 <= i < |a| ==> a[i].(id := b[i].id, order := b[i].order) == b[i]
    ensures ExportData(a) == ExportData(b)
  {
    if a != [] {
      ExportIgnoresIdAndOrder(a[1..], b[1..]);
    }
  }

  class Editor {
    /** The page's `questions` array. */
    var questions: seq<Question>
    var filteredQuestions: seq<Question>
    /** `editingIndex`: the position being edited, `null` for a new question. */
    var editingIndex: Option<nat>
    var deleteIndex: Option<nat>

    constructor ()
      ensures questions == [] && filteredQuestions == [] && editingIndex == None && deleteIndex == None
    {
      questions := [];
      filteredQuestions := [];
      editingIndex := None;
      deleteIndex := None;
    }

    /** `loadQuestionsFromFirestore`: the stored documents, already in `order`, replace the list. */
    method Load(documents: seq<Question>)
      modifies this`questions, this`filteredQuestions
      ensures questions == documents && filteredQuestions == documents
    {
      questions := documents;
      filteredQuestions := questions;
    }

    /** The handler of the difficulty select and the search box. */
    method ApplyFilter(difficulty: string, search: string)
      modifies this`filteredQuestions
      ensures filteredQuestions == FilterQuestions(questions, difficulty, search)
    {
      filteredQuestions := FilterQuestions(questions, difficulty, search);
    }

    /** `openAddModal`: the form is for a new question. */
    method OpenAddModal()
      modifies this`editingIndex
      ensures editingIndex == None
    {
      editingIndex := None;
    }

    /** `editQuestion(index)`: the form edits the question at `index`. */
    method EditQuestion(index: nat)
      modifies this`editingIndex
      ensures editingIndex == Some(index)
    {
      editingIndex := Some(index);
    }

    /** `deleteQuestion(index)`: the confirmation dialog is for the question at `index`. */
    method DeleteQuestion(index: nat)
      modifies this`deleteIndex
      ensures deleteIndex == Some(index)
    {
      deleteIndex := Some(index);
    }

    /**
     * The local effect of `addQuestionToFirestore`: the question, with the id
     * the store gave it, is appended, and the filter is reset to the whole list.
     */
    method AddQuestion(form: Form, order: int, docId: string)
      modifies this`questions, this`filteredQuestions
      ensures questions == old(questions) + [Question(docId, form.text, form.options, form.correct, form.difficulty, order)]
      ensures filteredQuestions == questions
    {
      questions := questions + [Question(docId, form.text, form.options, form.correct, form.difficulty, order)];
      filteredQuestions := questions;
    }

    /**
     * The local effect of `updateQuestionInFirestore`: only position `index` is
     * replaced, by the new contents under the old document id.
     */
    method UpdateQuestion(index: nat, form: Form, order: int)
      requires index < |questions|
      modifies this`questions, this`filteredQuestions
      ensures |questions| == |old(questions)|
      ensures questions[index] == Question(old(questions)[index].id, form.text, form.options, form.correct, form.difficulty, order)
      ensures forall j :: 0 <= j < |questions| && j != index ==> questions[j] == old(questions)[j]
      ensures filteredQuestions == questions
    {
      questions := questions[index := Question(questions[index].id, form.text, form.options, form.correct, form.difficulty, order)];
      filteredQuestions := questions;
    }

    /**
     * `saveQuestion`: a refused form changes nothing. An accepted one is added
     * with `order` equal to the list length, or, when editing an existing
     * position, replaces it keeping its id and order. Editing a position that no
     * longer exists stops with an error before any change.
     */
    method SaveQuestion(rawText: string, rawOptions: seq<string>, correct: Option<nat>, difficulty: Option<string>, docId: string)
      returns (r: Result<Form, FormError>, saved: bool)
      requires |rawOptions| == OptionCount
      modifies this`questions, this`filteredQuestions
      ensures r.Ok? <==> AllFilled(TrimAll(rawOptions)) && correct.Some? && difficulty.Some? && Trim(rawText) != []
      ensures saved <==> r.Ok? && (editingIndex.None? || editingIndex.value < |old(questions)|)
      ensures !saved ==> questions == old(questions) && filteredQuestions == old(filteredQuestions)
      ensures saved && editingIndex.None? ==>
        questions == old(questions) + [Question(docId, r.value.text, r.value.options, r.value.correct, r.value.difficulty, |old(questions)|)]
      ensures saved && editingIndex.Some? ==>
        var k := editingIndex.value;
        && |questions| == |old(questions)|
        && questions[k] == Question(old(questions)[k].id, r.value.text, r.value.options, r.value.correct, r.value.difficulty, old(questions)[k].order)
        && forall j :: 0 <= j < |questions| && j != k ==> questions[j] == old(questions)[j]
      ensures saved ==> filteredQuestions == questions
    {
      r := ReadForm(rawText, rawOptions, correct, difficulty);
      saved := false;
      if r.Err? {
        return;
      }
      if editingIndex.Some? && editingIndex.value >= |questions| {
        return;
      }
      var order := if editingIndex.Some? then questions[editingIndex.value].order else |questions|;
      if editingIndex.Some? {
        UpdateQuestion(editingIndex.value, r.value, order);
      } else {
        AddQuestion(r.value, order, docId);
      }
      saved := true;
    }

    /**
     * `confirmDelete` and the local effect of `deleteQuestionFromFirestore`:
     * exactly the element at the chosen position is removed and the rest keep
     * their order. Nothing happens without a chosen position or past the end.
     */
    method ConfirmDelete() returns (deleted: bool)
      modifies this`questions, this`filteredQuestions
      ensures deleted <==> deleteIndex.Some? && deleteIndex.value < |old(questions)|
      ensures !deleted ==> questions == old(questions) && filteredQuestions == old(filteredQuestions)
      ensures deleted ==>
        && questions == old(questions)[..deleteIndex.value] + old(questions)[deleteIndex.value + 1..]
        && multiset(questions) + multiset{old(questions)[deleteIndex.value]} == multiset(old(questions))
        && filteredQuestions == questions
    {
      if deleteIndex.None? || deleteIndex.value >= |questions| {
        return false;
      }
      var k := deleteIndex.value;
      assert questions == questions[..k] + [questions[k]] + questions[k + 1..];
      questions := questions[..k] + questions[k + 1..];
      filteredQuestions := questions;
      return true;
    }

    /**
     * `duplicateQuestion(index)`: a marked copy of the question at `index` is
     * appended with `order` equal to the list length; past the end nothing happens.
     */
    method DuplicateQuestion(index: nat, docId: string) returns (added: bool)
      modifies this`questions, this`filteredQuestions
      ensures added <==> index < |old(questions)|
      ensures !added ==> questions == old(questions) && filteredQuestions == old(filteredQuestions)
      ensures added ==>
        && questions == old(questions) + [DuplicateOf(old(questions)[index], docId, |old(questions)|)]
        && filteredQuestions == questions
    {
      if index >= |questions| {
        return false;
      }
      var q := questions[index];
      AddQuestion(Form(q.text + CopySuffix, q.options, q.correct, q.difficulty), |questions|, docId);
      return true;
    }
  }
}

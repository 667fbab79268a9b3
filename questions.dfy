/** The trivia question bank and the random draw of questions (`utils/questions.ts`).

    `Math.random()` is not modelled as a number: each random index is a
    nondeterministic choice of an integer in the range the source's
    `Math.floor(Math.random() * n)` can produce. */
module Questions {
  import opened Wrappers

  /** A question; `correctAnswer` and `category` are optional fields. */
  datatype Question = Question(question: string, options: seq<string>,
                               correctAnswer: Option<string>, category: Option<string>)

  const RomaniaQuestions: seq<Question> := [
      Question("What is the capital of Romania?",
        ["Bucharest", "Paris", "Berlin", "Madrid"],
        Some("Bucharest"), Some("geography")),
      Question("Who wrote the novel \"Ion\"?",
        ["Liviu Rebreanu", "Mihail Sadoveanu", "Ion Creangă", "George Coșbuc"],
        Some("Liviu Rebreanu"), Some("literature")),
      Question("In what year did Romania join the European Union?",
        ["2007", "2004", "2010", "2000"],
        Some("2007"), Some("history")),
      Question("What is the largest river in Romania?",
        ["Danube", "Olt", "Mures", "Siret"],
        Some("Danube"), Some("geography")),
      Question("Which mountain range runs through Romania?",
        ["Carpathians", "Alps", "Pyrenees", "Urals"],
        Some("Carpathians"), Some("geography")),
      Question("What is the name of the Romanian currency?",
        ["Leu", "Euro", "Dollar", "Zloty"],
        Some("Leu"), Some("general")),
      Question("Which of these is a traditional Romanian dish?",
        ["Sarmale", "Paella", "Sushi", "Hamburger"],
        Some("Sarmale"), Some("culture")),
      Question("Who is considered the national poet of Romania?",
        ["Mihai Eminescu", "Ion Luca Caragiale", "Nichita Stănescu", "Tudor Arghezi"],
        Some("Mihai Eminescu"), Some("literature")),
      Question("Which Romanian gymnast scored a perfect 10 at the 1976 Olympics?",
        ["Nadia Comăneci", "Simona Halep", "Gheorghe Hagi", "Ilie Năstase"],
        Some("Nadia Comăneci"), Some("sports")),
      Question("What is the highest peak in Romania?",
        ["Moldoveanu Peak", "Negoiu Peak", "Omu Peak", "Retezat Peak"],
        Some("Moldoveanu Peak"), Some("geography"))
    ]

  const HistoryQuestions: seq<Question> := [
      Question("Who was the first king of modern Romania?",
        ["Carol I", "Ferdinand I", "Michael I", "Charles II"],
        Some("Carol I"), Some("history")),
      Question("In what year did the Romanian Revolution take place?",
        ["1989", "1991", "1986", "1979"],
        Some("1989"), Some("history")),
      Question("Which Roman emperor led the conquest of Dacia (modern-day Romania)?",
        ["Trajan", "Augustus", "Constantine", "Nero"],
        Some("Trajan"), Some("history")),
      Question("Who was Romania's communist leader from 1965 to 1989?",
        ["Nicolae Ceaușescu", "Ion Iliescu", "Gheorghe Gheorghiu-Dej", "Petru Groza"],
        Some("Nicolae Ceaușescu"), Some("history")),
      Question("What was the ancient name of Romania?",
        ["Dacia", "Thracia", "Illyria", "Pannonia"],
        Some("Dacia"), Some("history")),
      Question("Which medieval Romanian ruler is known for fighting against the Ottoman Empire?",
        ["Vlad the Impaler", "Stephen the Great", "Mircea the Elder", "Michael the Brave"],
        Some("Vlad the Impaler"), Some("history")),
      Question("What event in 1918 led to the creation of Greater Romania?",
        ["The Great Union", "Treaty of Versailles", "Treaty of Trianon", "Transylvanian Revolution"],
        Some("The Great Union"), Some("history"))
    ]

  const GeographyQuestions: seq<Question> := [
      Question("Which sea borders Romania to the east?",
        ["Black Sea", "Mediterranean Sea", "Caspian Sea", "Adriatic Sea"],
        Some("Black Sea"), Some("geography")),
      Question("Which of these countries does NOT share a border with Romania?",
        ["Poland", "Hungary", "Ukraine", "Bulgaria"],
        Some("Poland"), Some("geography")),
      Question("What is the largest city in Transylvania?",
        ["Cluj-Napoca", "Brașov", "Sibiu", "Timișoara"],
        Some("Cluj-Napoca"), Some("geography")),
      Question("Which region is known as the \"granary of Romania\"?",
        ["Bărăgan Plain", "Transylvania", "Dobrogea", "Banat"],
        Some("Bărăgan Plain"), Some("geography")),
      Question("Which Romanian river flows into the Black Sea?",
        ["Danube", "Olt", "Mureș", "Siret"],
        Some("Danube"), Some("geography")),
      Question("What is the second largest city in Romania?",
        ["Cluj-Napoca", "Timișoara", "Iași", "Constanța"],
        Some("Cluj-Napoca"), Some("geography")),
      Question("In which region of Romania is the Danube Delta located?",
        ["Dobrogea", "Moldova", "Muntenia", "Oltenia"],
        Some("Dobrogea"), Some("geography"))
    ]

  const CultureQuestions: seq<Question> := [
      Question("Who composed the Romanian Rhapsody?",
        ["George Enescu", "Ciprian Porumbescu", "Dinu Lipatti", "Nicolae Breban"],
        Some("George Enescu"), Some("culture")),
      Question("What is the traditional Romanian blouse called?",
        ["Ie", "Opinci", "Marama", "Suman"],
        Some("Ie"), Some("culture")),
      Question("Which Romanian sculptor created \"The Endless Column\"?",
        ["Constantin Brâncuși", "Ion Jalea", "Corneliu Baba", "Nicolae Tonitza"],
        Some("Constantin Brâncuși"), Some("culture")),
      Question("Which Romanian film won the Palme d'Or at Cannes Film Festival in 2007?",
        ["4 Months, 3 Weeks and 2 Days", "Child's Pose", "The Death of Mr. Lazarescu", "Beyond the Hills"],
        Some("4 Months, 3 Weeks and 2 Days"), Some("culture")),
      Question("What is the name of the traditional Romanian dance where dancers form a circle?",
        ["Hora", "Samba", "Polka", "Waltz"],
        Some("Hora"), Some("culture"))
    ]

  const LiteratureQuestions: seq<Question> := [
      Question("Which Romanian writer was a prominent member of the Theatre of the Absurd?",
        ["Eugen Ionesco", "Mircea Eliade", "Emil Cioran", "Lucian Blaga"],
        Some("Eugen Ionesco"), Some("literature")),
      Question("Who wrote the novel \"The Forest of the Hanged\"?",
        ["Liviu Rebreanu", "Camil Petrescu", "Mihail Sadoveanu", "Marin Preda"],
        Some("Liviu Rebreanu"), Some("literature")),
      Question("Which Romanian author wrote \"Nostalgia\"?",
        ["Mircea Cărtărescu", "Norman Manea", "Herta Müller", "Dan Lungu"],
        Some("Mircea Cărtărescu"), Some("literature"))
    ]

  const SportsQuestions: seq<Question> := [
      Question("Which Romanian football team has won the European Cup (now Champions League)?",
        ["Steaua București", "Dinamo București", "Rapid București", "CFR Cluj"],
        Some("Steaua București"), Some("sports")),
      Question("Which sport brought Romania the most Olympic gold medals?",
        ["Gymnastics", "Rowing", "Athletics", "Boxing"],
        Some("Gymnastics"), Some("sports")),
      Question("Which Romanian tennis player won the Wimbledon Women's Singles title in 2019?",
        ["Simona Halep", "Sorana Cîrstea", "Monica Niculescu", "Irina-Camelia Begu"],
        Some("Simona Halep"), Some("sports"))
    ]

  const ScienceQuestions: seq<Question> := [
      Question("Who is the Romanian inventor of the jet engine?",
        ["Henri Coandă", "Petrache Poenaru", "Aurel Vlaicu", "Traian Vuia"],
        Some("Henri Coandă"), Some("science")),
      Question("Which Romanian invented the first insulin extraction method?",
        ["Nicolae Paulescu", "Ana Aslan", "Victor Babeș", "Ioan Cantacuzino"],
        Some("Nicolae Paulescu"), Some("science")),
      Question("What did Petrache Poenaru invent?",
        ["The fountain pen", "The telephone", "The lightbulb", "The automobile"],
        Some("The fountain pen"), Some("science"))
    ]

  /** The seven banks concatenated in order. */
  const AllQuestions: seq<Question> :=
    RomaniaQuestions + HistoryQuestions + GeographyQuestions + CultureQuestions
    + LiteratureQuestions + SportsQuestions + ScienceQuestions

  /** The number of questions drawn when the caller gives no count. */
  const DefaultCount: int := 5

  /** A question is usable in a battle: four options, and a correct answer that is
      one of them. */
  predicate WellFormed(q: Question)
  {
    |q.options| == 4 && q.correctAnswer.Some? && q.correctAnswer.value in q.options
  }

  /** Every question of `qs` is well formed and carries a category. */
  ghost predicate AllWellFormed(qs: seq<Question>)
  {
    forall k :: 0 <= k < |qs| ==> WellFormed(qs[k]) && qs[k].category.Some?
  }

  lemma AllWellFormedAppend(a: seq<Question>, b: seq<Question>)
    requires AllWellFormed(a) && AllWellFormed(b)
    ensures AllWellFormed(a + b)
  {
    forall k | 0 <= k < |a + b|
      ensures WellFormed((a + b)[k]) && (a + b)[k].category.Some?
    {
      if k >= |a| {
        assert (a + b)[k] == b[k - |a|];
      }
    }
  }

  lemma RomaniaWellFormed() ensures AllWellFormed(RomaniaQuestions) {}
  lemma HistoryWellFormed() ensures AllWellFormed(HistoryQuestions) {}
  lemma GeographyWellFormed() ensures AllWellFormed(GeographyQuestions) {}
  lemma CultureWellFormed() ensures AllWellFormed(CultureQuestions) {}
  lemma LiteratureWellFormed() ensures AllWellFormed(LiteratureQuestions) {}
  lemma SportsWellFormed() ensures AllWellFormed(SportsQuestions) {}
  lemma ScienceWellFormed() ensures AllWellFormed(ScienceQuestions) {}

  /** The literal bank holds 38 questions, every one of them well formed and
      carrying a category. */
  lemma BankWellFormed()
    ensures |AllQuestions| == 38
    ensures forall q :: q in AllQuestions ==> WellFormed(q) && q.category.Some?
  {
    RomaniaWellFormed();
    HistoryWellFormed();
    GeographyWellFormed();
    CultureWellFormed();
    LiteratureWellFormed();
    SportsWellFormed();
    ScienceWellFormed();
    var b2 := RomaniaQuestions + HistoryQuestions;
    AllWellFormedAppend(RomaniaQuestions, HistoryQuestions);
    AllWellFormedAppend(b2, GeographyQuestions);
    AllWellFormedAppend(b2 + GeographyQuestions, CultureQuestions);
    AllWellFormedAppend(b2 + GeographyQuestions + CultureQuestions, LiteratureQuestions);
    AllWellFormedAppend(b2 + GeographyQuestions + CultureQuestions + LiteratureQuestions, SportsQuestions);
    AllWellFormedAppend(b2 + GeographyQuestions + CultureQuestions + LiteratureQuestions + SportsQuestions, ScienceQuestions);
  }

  /** An optional category is truthy when it is present and not the empty string. */
  predicate Truthy(category: Option<string>)
  {
    category.Some? && category.value != ""
  }

  /** `qs.filter(q => q.category === cat)`, keeping the order. */
  function FilterCategory(qs: seq<Question>, cat: string): seq<Question>
  {
    if |qs| == 0 then []
    else (if qs[0].category == Some(cat) then [qs[0]] else []) + FilterCategory(qs[1..], cat)
  }

  /** The filter keeps exactly the questions of category `cat`, each from its own
      position of `qs`. */
  lemma {:induction false} FilterCategorySpec(qs: seq<Question>, cat: string)
    ensures forall q :: q in FilterCategory(qs, cat) ==> q in qs && q.category == Some(cat)
    ensures forall q :: q in qs && q.category == Some(cat) ==> q in FilterCategory(qs, cat)
    ensures multiset(FilterCategory(qs, cat)) <= multiset(qs)
  {
    if |qs| > 0 {
      FilterCategorySpec(qs[1..], cat);
      assert qs == [qs[0]] + qs[1..];
    }
  }

  /** Lines 268-274 over a given bank: a truthy category filters the bank, and a
      filtered pool with fewer than `count` questions falls back to the whole bank. */
  function SelectPool(bank: seq<Question>, count: int, category: Option<string>): (pool: seq<Question>)
    ensures !Truthy(category) ==> pool == bank
    ensures Truthy(category) && |FilterCategory(bank, category.value)| < count ==> pool == bank
    ensures Truthy(category) && |FilterCategory(bank, category.value)| >= count ==>
              |pool| >= count && forall q :: q in pool ==> q.category == category
    ensures multiset(pool) <= multiset(bank)
  {
    var filtered := if Truthy(category) then FilterCategory(bank, category.value) else bank;
    FilterCategorySpec(bank, if Truthy(category) then category.value else "");
    if |filtered| < count then bank else filtered
  }

  /** The length of `s.slice(0, count)` for `|s| == n`: a negative end counts back
      from the end of the array. */
  function SliceLength(n: nat, count: int): (k: nat)
    ensures k <= n
  {
    if count >= 0 then (if count <= n then count else n)
    else if n + count >= 0 then n + count else 0
  }

  /** Lines 279-286: a Fisher-Yates shuffle of a copy of the input. Every swap index
      `j` is drawn from `[0, i]`, so the result is a permutation of the input. */
  method ShuffleArray<T>(s: seq<T>) returns (r: seq<T>)
    ensures |r| == |s|
    ensures multiset(r) == multiset(s)
  {
    var result := new T[|s|](k requires 0 <= k < |s| => s[k]);
    assert result[..] == s;
    var i := result.Length - 1;
    while i > 0
      invariant -1 <= i < result.Length
      invariant multiset(result[..]) == multiset(s)
    {
      var j :| 0 <= j <= i;
      result[i], result[j] := result[j], result[i];
      i := i - 1;
    }
    r := result[..];
  }

  /** `r` is a possible outcome of lines 267-277 over `bank`: it has the length of
      `slice(0, count)` of the pool chosen by `SelectPool`, takes each of its
      questions from a distinct position of that pool, and keeps to the category
      whenever the bank holds at least `count` questions of it. */
  predicate Drawn(bank: seq<Question>, count: int, category: Option<string>, r: seq<Question>)
  {
    var pool := SelectPool(bank, count, category);
    && |r| == SliceLength(|pool|, count)
    && multiset(r) <= multiset(pool)
    && (Truthy(category) && |FilterCategory(bank, category.value)| >= count ==>
          forall q :: q in r ==> q.category == category)
  }

  /** Every drawn question is a question of the bank. */
  lemma DrawnMembers(bank: seq<Question>, count: int, category: Option<string>, r: seq<Question>)
    requires Drawn(bank, count, category, r)
    ensures forall q :: q in r ==> q in bank
  {
    SubMultisetMembers(r, SelectPool(bank, count, category));
    SubMultisetMembers(SelectPool(bank, count, category), bank);
  }

  /** Lines 267-277 over a given bank: pick the pool, shuffle it and take the first
      `count` questions; a non-negative count yields `min(count, |pool|)` of them. */
  method DrawQuestions(bank: seq<Question>, count: int, category: Option<string>) returns (r: seq<Question>)
    ensures Drawn(bank, count, category, r)
    ensures count >= 0 ==>
              |r| == if count <= |SelectPool(bank, count, category)| then count else |SelectPool(bank, count, category)|
  {
    var pool := SelectPool(bank, count, category);
    var shuffled := ShuffleArray(pool);
    var n := SliceLength(|shuffled|, count);
    r := shuffled[..n];
    PrefixSubMultiset(shuffled, n);
    SubMultisetMembers(r, pool);
  }

  /** Lines 267-277: `getRandomQuestions(count = 5, category)`, the draw over the
      whole bank. */
  method GetRandomQuestions(count: int := DefaultCount, category: Option<string> := None)
      returns (r: seq<Question>)
    ensures Drawn(AllQuestions, count, category, r)
  {
    r := DrawQuestions(AllQuestions, count, category);
  }

  /** A prefix takes its elements from distinct positions of the whole. */
  lemma PrefixSubMultiset<T>(s: seq<T>, n: nat)
    requires n <= |s|
    ensures multiset(s[..n]) <= multiset(s)
  {
    assert s == s[..n] + s[n..];
  }

  /** Whatever occurs in a sub-multiset occurs in the whole. */
  lemma SubMultisetMembers<T>(a: seq<T>, b: seq<T>)
    requires multiset(a) <= multiset(b)
    ensures forall x :: x in a ==> x in b
  {
    forall x | x in a
      ensures x in b
    {
      assert x in multiset(a);
    }
  }

  /** Lines 288-291 over a given bank: the first question of a one-question draw.
      A non-empty bank always yields a question; it has the requested category
      whenever the bank holds one of that category. */
  method DrawQuestion(bank: seq<Question>, category: Option<string>) returns (q: Question)
    requires |bank| > 0
    ensures q in bank
    ensures Truthy(category) && |FilterCategory(bank, category.value)| >= 1 ==> q.category == category
  {
    var questions := DrawQuestions(bank, 1, category);
    q := questions[0];
    DrawnMembers(bank, 1, category, questions);
  }

  /** The literal bank holds 38 questions. */
  lemma BankSize()
    ensures |AllQuestions| == 38
  {
  }

  /** Lines 288-291: `getRandomQuestion(category)`, which always returns a question
      because the bank is not empty. */
  method GetRandomQuestion(category: Option<string> := None) returns (q: Question)
    ensures q in AllQuestions
    ensures Truthy(category) && |FilterCategory(AllQuestions, category.value)| >= 1 ==> q.category == category
  {
    BankSize();
    q := DrawQuestion(AllQuestions, category);
  }
}

/** The submissions dashboard: the stored list, the empty state and category colours. */
module Dashboard {
  import opened Submissions
  import Onboarding

  const DefaultColor: string := "bg-violet-100 text-violet-700"

  /** The colour classes of the categories that have their own colour. */
  const CategoryColors: map<string, string> := map[
    "Singer" := "bg-pink-100 text-pink-700",
    "Musician" := "bg-blue-100 text-blue-700",
    "Band" := "bg-purple-100 text-purple-700",
    "DJ" := "bg-amber-100 text-amber-700",
    "Dancer" := "bg-emerald-100 text-emerald-700"
  ]

  /**
   * The colour classes of a category badge: the listed ones, or the default.
   * The lookup is total, and a category gets the default exactly when it is
   * not listed.
   */
  function CategoryColor(category: string): (c: string)
    ensures c in CategoryColors.Values + {DefaultColor}
    ensures category in CategoryColors ==> c == CategoryColors[category]
    ensures c == DefaultColor <==> category !in CategoryColors
  {
    if category in CategoryColors && CategoryColors[category] != "" then CategoryColors[category]
    else DefaultColor
  }

  /** The five listed categories get their listed classes. */
  lemma ListedCategoryColors()
    ensures CategoryColor("Singer") == "bg-pink-100 text-pink-700"
    ensures CategoryColor("Musician") == "bg-blue-100 text-blue-700"
    ensures CategoryColor("Band") == "bg-purple-100 text-purple-700"
    ensures CategoryColor("DJ") == "bg-amber-100 text-amber-700"
    ensures CategoryColor("Dancer") == "bg-emerald-100 text-emerald-700"
  {
  }

  /**
   * Of the categories the onboarding form offers, Singer, DJ and Dancer get
   * their own colour and Comedian, Speaker and Actor the default.
   */
  lemma OnboardingCategoryColors()
    ensures forall c :: c in Onboarding.CategoryChoices ==>
              (CategoryColor(c) != DefaultColor <==> c in {"Singer", "DJ", "Dancer"})
  {
  }

  /** What the page shows below its title. */
  datatype View = NoSubmissionsYet | SubmissionCards(cards: seq<Submission>)

  function ViewOf(artists: seq<Submission>): (v: View)
    ensures v.NoSubmissionsYet? <==> |artists| == 0
    ensures v.SubmissionCards? ==> v.cards == artists
  {
    if |artists| == 0 then NoSubmissionsYet else SubmissionCards(artists)
  }

  /** The dashboard component's state. */
  class DashboardPage {
    var artists: seq<Submission>

    constructor ()
      ensures artists == []
    {
      artists := [];
    }

    /** The mount effect: copy the stored list, if the key is there, into the state. */
    method LoadStored(storage: Storage)
      modifies this
      ensures SubmissionsKey in storage ==> artists == storage[SubmissionsKey]
      ensures SubmissionsKey !in storage ==> artists == old(artists)
    {
      if SubmissionsKey in storage {
        artists := storage[SubmissionsKey];
      }
    }
  }

  /**
   * Opening the dashboard shows the stored list in stored order, or the
   * empty state when the key is missing.
   */
  method OpenDashboard(storage: Storage) returns (page: DashboardPage)
    ensures fresh(page)
    ensures page.artists == Stored(storage)
    ensures SubmissionsKey !in storage ==> page.artists == []
    ensures ViewOf(page.artists).NoSubmissionsYet? <==> Stored(storage) == []
  {
    page := new DashboardPage();
    page.LoadStored(storage);
  }

  /** An onboarding submission appears as the last card of the dashboard. */
  lemma SubmissionShownLast(storage: Storage, p: Submission)
    ensures ViewOf(Stored(Appended(storage, p))).SubmissionCards?
    ensures var cards := ViewOf(Stored(Appended(storage, p))).cards;
      cards[|cards| - 1] == p && cards[..|cards| - 1] == Stored(storage)
  {
    AppendedThenStored(storage, p);
  }
}

/**
 * The administration page of the Memes Boost site.
 *
 * The page keeps three display lists (tokens, communities, airdrops), each ordered by
 * an administrator-typed `position`, plus a local copy of the server's task list and
 * the two entry forms. Its handlers validate a form, then replace one list: append and
 * sort, filter out an id, or map one task's flag. The token lookup and the server's
 * replies are inputs here.
 */
module Admin {
  import opened Wrappers
  import PointsServer

  type Task = PointsServer.Task

  // ----- number and name display -----

  /** The suffix `formatNumber` chooses, with the value it scales before rounding. */
  datatype Shown = NotAvailable | Millions(scaled: real) | Thousands(scaled: real) | Plain(value: real)

  /**
   * `formatNumber`: a missing value or 0 shows as 'N/A'; from one million up the value
   * is shown in millions with an `M`, from one thousand up in thousands with a `k`,
   * and anything smaller (negative values included) as it is.
   */
  function FormatNumber(num: Option<real>): (r: Shown)
    ensures r.NotAvailable? <==> num.None? || num.value == 0.0
    ensures r.Millions? <==> num.Some? && num.value >= 1000000.0
    ensures r.Thousands? <==> num.Some? && 1000.0 <= num.value < 1000000.0
    ensures r.Plain? <==> num.Some? && num.value != 0.0 && num.value < 1000.0
    ensures r.Millions? ==> r.scaled >= 1.0 && r.scaled * 1000000.0 == num.value
    ensures r.Thousands? ==> 1.0 <= r.scaled < 1000.0 && r.scaled * 1000.0 == num.value
    ensures r.Plain? ==> r.value == num.value
  {
    if num.None? || num.value == 0.0 then NotAvailable
    else if num.value >= 1000000.0 then Millions(num.value / 1000000.0)
    else if num.value >= 1000.0 then Thousands(num.value / 1000.0)
    else Plain(num.value)
  }

  /** 0 for a plain value, 1 for `k`, 2 for `M`. */
  function SuffixRank(s: Shown): nat {
    match s
    case NotAvailable => 0
    case Plain(_) => 0
    case Thousands(_) => 1
    case Millions(_) => 2
  }

  /** A larger positive value never gets a smaller suffix. */
  lemma SuffixMonotone(a: real, b: real)
    requires 0.0 < a <= b
    ensures SuffixRank(FormatNumber(Some(a))) <= SuffixRank(FormatNumber(Some(b)))
  {
  }

  /** `shortenName`: names over 10 characters keep their first 10 and gain "..."; a missing name shows as "". */
  function ShortenName(name: Option<string>): (r: string)
    ensures name.None? ==> r == ""
    ensures name.Some? && |name.value| <= 10 ==> r == name.value
    ensures name.Some? && |name.value| > 10 ==> r == name.value[..10] + "..."
  {
    if name.Some? && |name.value| > 10 then name.value[..10] + "..."
    else if name.Some? then name.value
    else ""
  }

  /** A shortened name is at most 13 characters and begins like the name it came from. */
  lemma ShortenedNameBounds(name: string)
    ensures |ShortenName(Some(name))| <= 13
    ensures var n := if |name| < 10 then |name| else 10;
            ShortenName(Some(name))[..n] == name[..n]
  {
  }

  /** Shortening an already shortened name changes nothing. */
  lemma {:induction false} ShortenNameIdempotent(name: Option<string>)
    ensures ShortenName(Some(ShortenName(name))) == ShortenName(name)
  {
    if name.Some? && |name.value| > 10 {
      var s := name.value[..10] + "...";
      assert s[..10] == name.value[..10];
    }
  }

  // ----- listings -----

  datatype Section = Tokens | Communities | Airdrops

  /** What the token lookup reports for a contract address. */
  datatype TokenInfo = TokenInfo(name: string, ticker: string, mcap: Shown, liq: Shown, vol: Shown)

  datatype Details =
    | AirdropDetails(name: string, ticker: string, status: string, chain: string)
    | TokenDetails(contractAddress: string, info: TokenInfo)

  datatype Listing = Listing(id: int, position: int, boosts: int, telegramLink: string, details: Details)

  /**
   * The add form. `position` and `boosts` are numeric inputs: empty (`None`) or a
   * number, where 0 counts as filled in.
   */
  datatype ListingForm = ListingForm(
    contractAddress: string, name: string, ticker: string, position: Option<int>, section: Section,
    boosts: Option<int>, status: string, chain: string, telegramLink: string)

  const EmptyListingForm := ListingForm("", "", "", None, Tokens, None, "", "", "")

  /** Why an add was refused, one per alert the page shows. */
  datatype Rejection = MissingBasics | MissingAirdropFields | MissingContractAddress | LookupFailed

  predicate BasicsFilled(f: ListingForm) {
    f.position.Some? && f.boosts.Some? && f.telegramLink != ""
  }

  predicate AirdropFieldsFilled(f: ListingForm) {
    f.name != "" && f.ticker != "" && f.status != "" && f.chain != ""
  }

  /**
   * The checks of `handleAddToken` and the entry it builds. `lookup` is the token
   * lookup's answer for the contract address; it is only consulted for tokens and
   * communities, and only once the address is filled in. `now` stands for `Date.now()`.
   */
  function ValidateListing(f: ListingForm, lookup: Option<TokenInfo>, now: int): (r: Result<Listing, Rejection>)
    ensures r.Failure? <==>
              || !BasicsFilled(f)
              || (f.section == Airdrops && !AirdropFieldsFilled(f))
              || (f.section != Airdrops && (f.contractAddress == "" || lookup.None?))
    ensures !BasicsFilled(f) ==> r == Failure(MissingBasics)
    ensures BasicsFilled(f) && f.section != Airdrops && f.contractAddress == "" ==> r == Failure(MissingContractAddress)
    ensures BasicsFilled(f) && f.section == Airdrops && !AirdropFieldsFilled(f) ==> r == Failure(MissingAirdropFields)
    ensures BasicsFilled(f) && f.section != Airdrops && f.contractAddress != "" && lookup.None? ==> r == Failure(LookupFailed)
    ensures r.Success? ==>
              && r.value.id == now
              && r.value.position == f.position.value
              && r.value.boosts == f.boosts.value
              && r.value.telegramLink == f.telegramLink
              && (r.value.details.AirdropDetails? <==> f.section == Airdrops)
              && (r.value.details.AirdropDetails? ==>
                    r.value.details == AirdropDetails(f.name, f.ticker, f.status, f.chain))
              && (r.value.details.TokenDetails? ==>
                    r.value.details == TokenDetails(f.contractAddress, lookup.value))
  {
    if !BasicsFilled(f) then Failure(MissingBasics)
    else if f.section == Airdrops then
      if !AirdropFieldsFilled(f) then Failure(MissingAirdropFields)
      else Success(Listing(now, f.position.value, f.boosts.value, f.telegramLink,
                           AirdropDetails(f.name, f.ticker, f.status, f.chain)))
    else if f.contractAddress == "" then Failure(MissingContractAddress)
    else if lookup.None? then Failure(LookupFailed)
    else Success(Listing(now, f.position.value, f.boosts.value, f.telegramLink,
                         TokenDetails(f.contractAddress, lookup.value)))
  }

  predicate SortedByPosition(s: seq<Listing>) {
    forall i, j :: 0 <= i < j < |s| ==> s[i].position <= s[j].position
  }

  /** Places `x` before the first entry whose position is not smaller. */
  function InsertByPosition(x: Listing, s: seq<Listing>): (r: seq<Listing>)
    requires SortedByPosition(s)
    ensures SortedByPosition(r)
    ensures multiset(r) == multiset(s) + multiset{x}
    ensures |r| == |s| + 1 && (r[0] == x || (s != [] && r[0] == s[0]))
  {
    if s == [] then [x]
    else if x.position <= s[0].position then [x] + s
    else
      var rest := InsertByPosition(x, s[1..]);
      assert s == [s[0]] + s[1..];
      [s[0]] + rest
  }

  /**
   * `sort((a, b) => a.position - b.position)`: a stable sort of the list by position,
   * written as an insertion sort.
   */
  function SortByPosition(s: seq<Listing>): (r: seq<Listing>)
    ensures SortedByPosition(r)
    ensures multiset(r) == multiset(s)
  {
    if s == [] then []
    else
      assert s == [s[0]] + s[1..];
      InsertByPosition(s[0], SortByPosition(s[1..]))
  }

  /**
   * Where a stable sort puts a new last entry into an already sorted list: after every
   * entry whose position is not larger, before the first one that is larger.
   */
  function PlaceAfterTies(e: Listing, s: seq<Listing>): seq<Listing> {
    if s == [] then [e]
    else if s[0].position <= e.position then [s[0]] + PlaceAfterTies(e, s[1..])
    else [e] + s
  }

  /** An entry no larger than the head of a sorted list goes in front of it. */
  lemma InsertInFront(x: Listing, s: seq<Listing>)
    requires SortedByPosition(s)
    requires s == [] || x.position <= s[0].position
    ensures InsertByPosition(x, s) == [x] + s
  {
  }

  lemma {:induction false} PlaceAfterTiesHead(e: Listing, s: seq<Listing>)
    ensures |PlaceAfterTies(e, s)| == |s| + 1
    ensures PlaceAfterTies(e, s)[0] == e || (s != [] && PlaceAfterTies(e, s)[0] == s[0])
  {
    if s != [] && s[0].position <= e.position {
      PlaceAfterTiesHead(e, s[1..]);
    }
  }

  /** One step of `AddToSortedList`: inserting the old head into the placed tail. */
  lemma PlaceStep(p: Listing, rest: seq<Listing>, e: Listing)
    requires SortedByPosition([p] + rest)
    requires SortedByPosition(PlaceAfterTies(e, rest))
    ensures InsertByPosition(p, PlaceAfterTies(e, rest)) == PlaceAfterTies(e, [p] + rest)
  {
    var placed := PlaceAfterTies(e, rest);
    var prev := [p] + rest;
    assert prev[0] == p && prev[1..] == rest;
    PlaceAfterTiesHead(e, rest);
    if p.position <= e.position {
      InsertInFront(p, placed);
    } else {
      assert SortedByPosition(rest);
      assert placed == [e] + rest && placed[1..] == rest;
      assert InsertByPosition(p, placed) == [e] + InsertByPosition(p, rest);
      InsertInFront(p, rest);
    }
  }

  /**
   * Adding to a sorted list moves no old entry: the new entry lands after the entries
   * it ties with, as JavaScript's stable `sort` leaves it.
   */
  lemma {:induction false} AddToSortedList(prev: seq<Listing>, e: Listing)
    requires SortedByPosition(prev)
    ensures SortByPosition(prev + [e]) == PlaceAfterTies(e, prev)
  {
    if prev == [] {
      assert prev + [e] == [e];
    } else {
      var p, rest := prev[0], prev[1..];
      var whole := prev + [e];
      assert whole[0] == p && whole[1..] == rest + [e];
      assert prev == [p] + rest;
      assert SortedByPosition(rest);
      AddToSortedList(rest, e);
      assert SortByPosition(whole) == InsertByPosition(p, PlaceAfterTies(e, rest));
      PlaceStep(p, rest, e);
    }
  }

  function ListingId(l: Listing): int {
    l.id
  }

  function TaskId(t: Task): int {
    t.id
  }

  /** `filter(item => item.id !== id)`: the entries whose id differs, in their order. */
  function WithoutId<T(!new)>(s: seq<T>, idOf: T -> int, id: int): (r: seq<T>)
    ensures forall x :: x in r <==> x in s && idOf(x) != id
    ensures |r| <= |s|
  {
    if s == [] then []
    else if idOf(s[0]) == id then WithoutId(s[1..], idOf, id)
    else [s[0]] + WithoutId(s[1..], idOf, id)
  }

  /** Filtering works piece by piece, so the kept entries stay in their order. */
  lemma {:induction false} WithoutIdConcat<T(!new)>(a: seq<T>, b: seq<T>, idOf: T -> int, id: int)
    ensures WithoutId(a + b, idOf, id) == WithoutId(a, idOf, id) + WithoutId(b, idOf, id)
  {
    if a != [] {
      assert (a + b)[0] == a[0];
      assert (a + b)[1..] == a[1..] + b;
      WithoutIdConcat(a[1..], b, idOf, id);
    } else {
      assert a + b == b;
    }
  }

  /** Entries with another id are kept as often as they occurred; entries with the id are all gone. */
  lemma {:induction false} WithoutIdCounts<T(!new)>(s: seq<T>, idOf: T -> int, id: int, x: T)
    ensures multiset(WithoutId(s, idOf, id))[x] == if idOf(x) == id then 0 else multiset(s)[x]
  {
    if s != [] {
      WithoutIdCounts(s[1..], idOf, id, x);
      assert s == [s[0]] + s[1..];
    }
  }

  // ----- the local task list -----

  /** `map(task => task.id === id ? { ...task, is_active: on } : task)`. */
  function SetActiveWhere(s: seq<Task>, id: int, on: bool): (r: seq<Task>)
    ensures |r| == |s|
    ensures forall i :: 0 <= i < |s| ==> r[i] == if s[i].id == id then s[i].(isActive := on) else s[i]
  {
    if s == [] then [] else
      [if s[0].id == id then s[0].(isActive := on) else s[0]] + SetActiveWhere(s[1..], id, on)
  }

  /**
   * Toggling a task from the page twice, each time sending the negation of the flag
   * it shows, gives back the list it started from.
   */
  lemma ToggleTwiceRestores(s: seq<Task>, id: int, shown: bool)
    requires forall i :: 0 <= i < |s| && s[i].id == id ==> s[i].isActive == shown
    ensures SetActiveWhere(SetActiveWhere(s, id, !shown), id, !!shown) == s
  {
    var once := SetActiveWhere(s, id, !shown);
    var twice := SetActiveWhere(once, id, !!shown);
    forall i | 0 <= i < |s|
      ensures twice[i] == s[i]
    {
    }
  }

  /** The task form; `points` is a numeric input, empty or a number. */
  datatype TaskForm = TaskForm(description: string, link: string, points: Option<int>)

  const EmptyTaskForm := TaskForm("", "", None)

  /** The JSON body posted to create a task. */
  datatype TaskRequest = TaskRequest(description: string, link: string, points: int)

  predicate TaskFormFilled(f: TaskForm) {
    f.description != "" && f.link != "" && f.points.Some?
  }

  class AdminPanel {
    var tokens: seq<Listing>
    var communities: seq<Listing>
    var airdrops: seq<Listing>
    var tasks: seq<Task>
    var form: ListingForm
    var taskForm: TaskForm

    /** The page as it opens: the three lists as kept by the browser, forms empty. */
    constructor (tokens: seq<Listing>, communities: seq<Listing>, airdrops: seq<Listing>)
      ensures this.tokens == tokens && this.communities == communities && this.airdrops == airdrops
      ensures this.tasks == [] && form == EmptyListingForm && taskForm == EmptyTaskForm
    {
      this.tokens, this.communities, this.airdrops := tokens, communities, airdrops;
      tasks, form, taskForm := [], EmptyListingForm, EmptyTaskForm;
    }

    /**
     * `handleAddToken`: a refused form changes nothing (the form keeps its contents);
     * an accepted one adds the new entry to the chosen list only, sorts that list by
     * position, and resets the form.
     */
    method AddListing(lookup: Option<TokenInfo>, now: int) returns (outcome: Result<Listing, Rejection>)
      modifies this
      ensures outcome == ValidateListing(old(form), lookup, now)
      ensures outcome.Failure? ==>
                tokens == old(tokens) && communities == old(communities) && airdrops == old(airdrops) && form == old(form)
      ensures outcome.Success? ==>
                var sec, entry := old(form.section), outcome.value;
                && tokens == (if sec == Tokens then SortByPosition(old(tokens) + [entry]) else old(tokens))
                && communities == (if sec == Communities then SortByPosition(old(communities) + [entry]) else old(communities))
                && airdrops == (if sec == Airdrops then SortByPosition(old(airdrops) + [entry]) else old(airdrops))
                && form == EmptyListingForm
      ensures tasks == old(tasks) && taskForm == old(taskForm)
    {
      outcome := ValidateListing(form, lookup, now);
      if outcome.Failure? {
        return;
      }
      var entry := outcome.value;
      match form.section {
        case Tokens => tokens := SortByPosition(tokens + [entry]);
        case Communities => communities := SortByPosition(communities + [entry]);
        case Airdrops => airdrops := SortByPosition(airdrops + [entry]);
      }
      form := EmptyListingForm;
    }

    /** `handleDeleteToken`: drops every entry with that id from the named list only. */
    method DeleteListing(id: int, section: Section)
      modifies this
      ensures tokens == (if section == Tokens then WithoutId(old(tokens), ListingId, id) else old(tokens))
      ensures communities == (if section == Communities then WithoutId(old(communities), ListingId, id) else old(communities))
      ensures airdrops == (if section == Airdrops then WithoutId(old(airdrops), ListingId, id) else old(airdrops))
      ensures tasks == old(tasks) && form == old(form) && taskForm == old(taskForm)
    {
      match section {
        case Tokens => tokens := WithoutId(tokens, ListingId, id);
        case Communities => communities := WithoutId(communities, ListingId, id);
        case Airdrops => airdrops := WithoutId(airdrops, ListingId, id);
      }
    }

    /**
     * `handleAddTask`: an incomplete form sends nothing. Otherwise the form's fields are
     * posted; `reply` is the created task when the server answered with success. Only
     * then is the task appended and the form cleared.
     */
    method AddTask(reply: Option<Task>) returns (sent: Option<TaskRequest>)
      modifies this
      ensures !TaskFormFilled(old(taskForm)) ==> sent.None?
      ensures TaskFormFilled(old(taskForm)) ==>
                sent == Some(TaskRequest(old(taskForm).description, old(taskForm).link, old(taskForm).points.value))
      ensures sent.Some? && reply.Some? ==> tasks == old(tasks) + [reply.value] && taskForm == EmptyTaskForm
      ensures sent.None? || reply.None? ==> tasks == old(tasks) && taskForm == old(taskForm)
      ensures tokens == old(tokens) && communities == old(communities) && airdrops == old(airdrops) && form == old(form)
    {
      if !TaskFormFilled(taskForm) {
        return None;
      }
      sent := Some(TaskRequest(taskForm.description, taskForm.link, taskForm.points.value));
      if reply.Some? {
        tasks := tasks + [reply.value];
        taskForm := EmptyTaskForm;
      }
    }

    /** `handleDeleteTask`: after a successful DELETE, the tasks with that id leave the list. */
    method DeleteTask(taskId: int, replyOk: bool)
      modifies this
      ensures tasks == (if replyOk then WithoutId(old(tasks), TaskId, taskId) else old(tasks))
      ensures tokens == old(tokens) && communities == old(communities) && airdrops == old(airdrops)
      ensures form == old(form) && taskForm == old(taskForm)
    {
      if replyOk {
        tasks := WithoutId(tasks, TaskId, taskId);
      }
    }

    /**
     * `handleToggleTaskStatus`: sends the negation of the flag shown for the task and,
     * once the server accepts, sets that flag on the tasks with that id.
     */
    method ToggleTaskStatus(taskId: int, shown: bool, replyOk: bool) returns (sent: bool)
      modifies this
      ensures sent == !shown
      ensures tasks == (if replyOk then SetActiveWhere(old(tasks), taskId, !shown) else old(tasks))
      ensures tokens == old(tokens) && communities == old(communities) && airdrops == old(airdrops)
      ensures form == old(form) && taskForm == old(taskForm)
    {
      sent := !shown;
      if replyOk {
        tasks := SetActiveWhere(tasks, taskId, sent);
      }
    }
  }
}

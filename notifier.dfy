/** The ntfy notifications for a change and for a failed fetch
    (src/notifier.ts): their title, message, priority, tags and click URL.
    The POST that sends them is not part of this module; the clock reading
    is passed in as an ISO timestamp. */
module Notifier {
  import opened Types
  import opened Text
  import opened Utils

  /** The body of one ntfy POST. */
  datatype Notification = Notification(
    topic: string,
    title: string,
    message: string,
    priority: nat,
    tags: seq<string>,
    click: string)

  /** `priorityMap`: ntfy priority levels by name. */
  const PriorityMap: map<string, nat> := map["urgent" := 5, "high" := 4, "default" := 3, "low" := 2, "min" := 1]

  /** The level names from most to least urgent. */
  const Levels: seq<string> := ["urgent", "high", "default", "low", "min"]

  const InitialTitle: string := "\U{2705} Initial snapshot: "
  const ChangeTitle: string := "\U{1F4E2} Change detected: "
  const ErrorTitle: string := "\U{274C} Failed to fetch: "

  /** `priorityMap[website.priority] ?? priorityMap.default` */
  function PriorityOf(level: string): (r: nat)
    ensures 1 <= r <= 5
    ensures level in PriorityMap ==> r == PriorityMap[level]
    ensures level !in PriorityMap ==> r == PriorityMap["default"]
  {
    if level in PriorityMap then PriorityMap[level] else PriorityMap["default"]
  }

  /** `website.tags ?? []` */
  function TagsOf(website: Website): seq<string>
  {
    if website.tags.Some? then website.tags.value else []
  }

  /** The tags of a change notification: the site's own, `changedetection`,
      then `initial` or `changed`. */
  function ChangeTags(website: Website, isFirstRun: bool): (r: seq<string>)
    ensures |r| == |TagsOf(website)| + 2
    ensures r[..|TagsOf(website)|] == TagsOf(website)
    ensures r[|r| - 2] == "changedetection"
    ensures r[|r| - 1] == if isFirstRun then "initial" else "changed"
  {
    TagsOf(website) + ["changedetection", if isFirstRun then "initial" else "changed"]
  }

  /** The tags of an error notification: the site's own, then `error`. */
  function ErrorTags(website: Website): (r: seq<string>)
    ensures |r| == |TagsOf(website)| + 1
    ensures r[..|TagsOf(website)|] == TagsOf(website) && r[|r| - 1] == "error"
  {
    TagsOf(website) + ["error"]
  }

  /** `${result.newHash}`: an absent hash renders as `undefined`. */
  function HashText(h: Option<string>): string
  {
    if h.Some? then h.value else "undefined"
  }

  function InitialMessage(url: string, newHash: Option<string>, now: string): string
  {
    "Initial snapshot created for " + url + "\n" + "Content hash: " + HashText(newHash) + "\n" + "Timestamp: " + now
  }

  /** The change message; there is no separator between the timestamp and
      `Snapshot:`. */
  function ChangeMessage(now: string, filename: string): string
  {
    "Changes detected at " + now + "Snapshot: snapshots/" + filename
  }

  function ErrorMessage(url: string, error: string, now: string): string
  {
    "Failed to fetch " + url + "\n\n" + "Error: " + error + "\n" + "Timestamp: " + now
  }

  /** `sendChangeNotification` up to the POST: the notification it sends, or
      the `Invalid URL` error `urlToFilename` throws for a change on a URL
      that does not parse. */
  function ChangeNotification(result: ChangeResult, website: Website, topic: string, now: string,
                              parseUrl: string -> Option<UrlParts>): (r: Result<Notification>)
    ensures r.Err? <==> !result.isFirstRun && parseUrl(result.url).None?
    ensures r.Err? ==> r.message == "Invalid URL: " + result.url
    ensures r.Ok? ==>
      && r.value.topic == topic
      && r.value.title == (if result.isFirstRun then InitialTitle else ChangeTitle) + result.name
      && r.value.priority == PriorityOf(website.priority)
      && r.value.tags == ChangeTags(website, result.isFirstRun)
      && r.value.click == result.url
    ensures r.Ok? && result.isFirstRun ==> r.value.message == InitialMessage(result.url, result.newHash, now)
    ensures r.Ok? && !result.isFirstRun ==>
      r.value.message == ChangeMessage(now, FilenameOf(parseUrl(result.url).value))
  {
    var priority := PriorityOf(website.priority);
    var tags := ChangeTags(website, result.isFirstRun);
    if result.isFirstRun then
      Ok(Notification(topic, InitialTitle + result.name, InitialMessage(result.url, result.newHash, now),
                      priority, tags, result.url))
    else
      match UrlToFilename(result.url, parseUrl)
      case Err(e) => Err(e)
      case Ok(filename) =>
        Ok(Notification(topic, ChangeTitle + result.name, ChangeMessage(now, filename), priority, tags, result.url))
  }

  /** `sendErrorNotification` up to the POST. */
  function ErrorNotification(website: Website, error: string, topic: string, now: string): (r: Notification)
    ensures r.topic == topic && r.title == ErrorTitle + website.name
    ensures r.priority == PriorityMap["urgent"] && r.tags == ErrorTags(website) && r.click == website.url
    ensures r.message == ErrorMessage(website.url, error, now)
  {
    Notification(topic, ErrorTitle + website.name, ErrorMessage(website.url, error, now),
                 PriorityMap["urgent"], ErrorTags(website), website.url)
  }

  /** The levels are strictly ordered, `urgent` highest and `min` lowest,
      and every level maps to a different priority. */
  lemma PrioritiesDecrease()
    ensures forall l :: l in PriorityMap <==> l in Levels
    ensures forall i, j :: 0 <= i < j < |Levels| ==> PriorityMap[Levels[i]] > PriorityMap[Levels[j]]
  {
    forall l ensures l in PriorityMap <==> l in Levels {
      if l in Levels {
        var k :| 0 <= k < |Levels| && Levels[k] == l;
        assert k == 0 || k == 1 || k == 2 || k == 3 || k == 4;
      }
    }
  }

  /** An error notification is urgent whatever the site's configured level,
      and is at least as urgent as any change notification. */
  lemma ErrorIsMostUrgent(website: Website, error: string, topic: string, now: string, level: string)
    ensures ErrorNotification(website, error, topic, now).priority == 5
    ensures PriorityOf(level) <= ErrorNotification(website, error, topic, now).priority
  {
  }

  lemma ThreeLines(a: string, b: string, c: string)
    requires '\n' !in a && '\n' !in b && '\n' !in c
    ensures Split(a + "\n" + b + "\n" + c) == [a, b, c]
  {
    SplitWithoutNewline(c);
    SplitAfterLine(b, c);
    assert a + "\n" + b + "\n" + c == a + "\n" + (b + "\n" + c);
    SplitAfterLine(a, b + "\n" + c);
  }

  lemma NoNewlineAppend(a: string, b: string)
    requires '\n' !in a && '\n' !in b
    ensures '\n' !in a + b
  {
  }

  /** Read line by line, the first-run message names the URL, then the
      content hash, then the timestamp. */
  lemma InitialMessageLines(url: string, newHash: Option<string>, now: string)
    requires '\n' !in url && '\n' !in HashText(newHash) && '\n' !in now
    ensures Split(InitialMessage(url, newHash, now))
      == ["Initial snapshot created for " + url, "Content hash: " + HashText(newHash), "Timestamp: " + now]
  {
    NoNewlineAppend("Initial snapshot created for ", url);
    NoNewlineAppend("Content hash: ", HashText(newHash));
    NoNewlineAppend("Timestamp: ", now);
    ThreeLines("Initial snapshot created for " + url, "Content hash: " + HashText(newHash), "Timestamp: " + now);
    Regroup("Initial snapshot created for ", url, "Content hash: ", HashText(newHash), "Timestamp: ", now);
  }

  lemma Regroup(p: string, a: string, q: string, b: string, r: string, c: string)
    ensures p + a + "\n" + q + b + "\n" + r + c == (p + a) + "\n" + (q + b) + "\n" + (r + c)
  {
  }

  /** Read line by line, the error message names the URL, then after a blank
      line the error, then the timestamp. */
  lemma ErrorMessageLines(url: string, error: string, now: string)
    requires '\n' !in url && '\n' !in error && '\n' !in now
    ensures Split(ErrorMessage(url, error, now))
      == ["Failed to fetch " + url, "", "Error: " + error, "Timestamp: " + now]
  {
    NoNewlineAppend("Failed to fetch ", url);
    NoNewlineAppend("Error: ", error);
    NoNewlineAppend("Timestamp: ", now);
    var rest := "" + "\n" + ("Error: " + error) + "\n" + ("Timestamp: " + now);
    ThreeLines("", "Error: " + error, "Timestamp: " + now);
    assert ErrorMessage(url, error, now) == ("Failed to fetch " + url) + "\n" + rest;
    SplitAfterLine("Failed to fetch " + url, rest);
  }

  /** A change message is a single line: the timestamp runs straight into
      `Snapshot:`. */
  lemma ChangeMessageIsOneLine(now: string, filename: string)
    requires '\n' !in now && '\n' !in filename
    ensures Split(ChangeMessage(now, filename)) == [ChangeMessage(now, filename)]
  {
    SplitWithoutNewline(ChangeMessage(now, filename));
  }
}

/** Values shared by every part of the crate-statistics model. */
module Types {

  /** A calendar date, as a day ordinal: the day after `d` is `d + 1`. */
  type Date = int

  /** Result of a registry fetch: `None` stands for the client's `Err`. */
  datatype Option<T> = None | Some(value: T)

  /** One registry record: the downloads of one crate version on one day. */
  datatype VersionDownload = VersionDownload(version: nat, date: Date, downloads: nat)

  /** A crate of the publisher's listing: its name and its lifetime download count. */
  datatype Crate = Crate(name: string, downloads: nat)

  /** Per-date download counts of one crate. */
  type DailyDownloads = map<Date, nat>

  /** The set of elements of a sequence. */
  function Elements<T>(s: seq<T>): set<T>
  {
    set x | x in s
  }
}

/** The study records both charts draw. */
module Records {

  /**
    One subject observation: its key, treatment arm (0 placebo, 1 active),
    visit index and the four clinical measures. The two layout positions the
    scrolling chart caches on each record are kept beside the records, as
    maps from record index to position (see module Layout).
   */
  datatype Datum = Datum(
    subject: int,
    treatment: int,
    visit: int,
    dlqi: real,
    bsa: real,
    easi: real,
    itch: real)
}

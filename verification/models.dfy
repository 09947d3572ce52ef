/** The records of the well dashboard: wells, street groups, their statistics and the filter. */
module Models {
  import opened Wrappers

  /**
   * One well (brønd). `clusterId` is declared as a number but the code treats it as
   * nullable, so it is an `Option`. `registreringDato` is a timestamp in milliseconds.
   */
  datatype Brond = Brond(
    id: int,
    vejNavn: string,
    vejKode: string,
    latitude: real,
    longitude: real,
    objektStatus: string,
    broendtype: Option<string>,
    pPladsDistance: real,
    clusterId: Option<int>,
    registreringDato: int)

  /** Per-group counts and the derived completion percentage. */
  datatype BrondgruppeStatistik = BrondgruppeStatistik(
    antalBroende: nat,
    antalPPladser: nat,
    antalUdfoerte: nat,
    antalDefekte: nat,
    procentUdfoert: nat)

  /** The wells of one street, in input order, with their statistics (the centre point is not modelled). */
  datatype Brondgruppe = Brondgruppe(
    vejNavn: string,
    vejKode: string,
    broende: seq<Brond>,
    statistik: BrondgruppeStatistik)

  datatype DateRange = DateRange(start: Option<int>, end: Option<int>)

  /** The filter criteria; `None` is a property that is absent or holds `undefined`. */
  datatype BrondgruppeFilter = BrondgruppeFilter(
    vejNavnSearch: Option<string>,
    minAntalBroende: Option<int>,
    statusFilter: Option<seq<string>>,
    dateRange: Option<DateRange>)

  /**
   * A `Partial<BrondgruppeFilter>`: per property, `None` when the key is not in the object,
   * `Some(v)` when it is, where `v == None` stands for an explicit `undefined`.
   */
  datatype FilterUpdate = FilterUpdate(
    vejNavnSearch: Option<Option<string>>,
    minAntalBroende: Option<Option<int>>,
    statusFilter: Option<Option<seq<string>>>,
    dateRange: Option<Option<DateRange>>)

  /** The empty object `{}`: the initial filter and the one `clearFilters` installs. */
  const NoFilter := BrondgruppeFilter(None, None, None, None)

  /** The empty partial update `{}`. */
  const NoUpdate := FilterUpdate(None, None, None, None)
}

/** The FLO customer table (flo_data_20k) as both analyses hold it: a pandas
    DataFrame that the scripts change in place. Columns the analyses never
    read (order_channel, last_order_channel) are not modelled.

    The four per-channel order and spend columns are `array`s because
    `replace_with_thresholds` overwrites cells of them in place; a column
    assigned as a whole (`df[name] = ...`) is a `seq` in a map from column
    name to values that the methods reassign. */
module Flo {
  import opened Wrappers

  /** A date cell: the text read from the file, or after `pd.to_datetime`
      a calendar day, counted in days since 1970-01-01. */
  datatype DateCell = Text(raw: string) | Day(day: int)

  /** The per-channel count and spend columns. */
  datatype NumericColumn = OrderNumOnline | OrderNumOffline | ValueOffline | ValueOnline

  function ColumnName(c: NumericColumn): string {
    match c
    case OrderNumOnline => "order_num_total_ever_online"
    case OrderNumOffline => "order_num_total_ever_offline"
    case ValueOffline => "customer_value_total_ever_offline"
    case ValueOnline => "customer_value_total_ever_online"
  }

  const FirstOrderDate := "first_order_date"
  const LastOrderDate := "last_order_date"

  /** `date_columns` (caseStudy5/FLO_RFM.py:113-114, 256-257). */
  const DateColumns: seq<string> := [FirstOrderDate, LastOrderDate, "last_order_date_online", "last_order_date_offline"]

  /** The analysis date both analyses fix, `dt.datetime(2021, 6, 1)`, in
      days since 1970-01-01 (caseStudy5/FLO_RFM.py:140, caseStudy6/FLO_CLTV_Prediction.py:108). */
  const Today: int := 18779

  /** `pd.to_datetime` on one cell. Parsing the text is not modelled: `parse`
      stands for it. A cell already converted is left as it is. */
  function ToDatetime(parse: string -> int, c: DateCell): (d: DateCell)
    ensures d.Day?
    ensures c.Day? ==> d == c
  {
    match c
    case Text(s) => Day(parse(s))
    case Day(_) => c
  }

  predicate AllDays(col: seq<DateCell>) {
    forall i :: 0 <= i < |col| ==> col[i].Day?
  }

  /** `pd.to_datetime(df[col])`: every cell converted. */
  function ToDatetimeColumn(parse: string -> int, col: seq<DateCell>): (r: seq<DateCell>)
    ensures |r| == |col| && AllDays(r)
    ensures forall i :: 0 <= i < |col| && col[i].Day? ==> r[i] == col[i]
  {
    seq(|col|, i requires 0 <= i < |col| => ToDatetime(parse, col[i]))
  }

  /** Converting a converted column again changes nothing. */
  lemma ToDatetimeColumnIdempotent(parse: string -> int, col: seq<DateCell>)
    ensures ToDatetimeColumn(parse, ToDatetimeColumn(parse, col)) == ToDatetimeColumn(parse, col)
  {
  }

  /** The day numbers of a converted date column. */
  function Days(col: seq<DateCell>): (d: seq<int>)
    requires AllDays(col)
    ensures |d| == |col| && forall i :: 0 <= i < |col| ==> col[i] == Day(d[i])
  {
    seq(|col|, i requires 0 <= i < |col| => col[i].day)
  }

  /** Element-wise `a + b` of two columns. */
  function Plus(a: seq<real>, b: seq<real>): (r: seq<real>)
    requires |a| == |b|
    ensures |r| == |a|
  {
    seq(|a|, i requires 0 <= i < |a| => a[i] + b[i])
  }

  class Frame {
    var masterId: seq<string>
    var orderNumOnline: array<real>
    var orderNumOffline: array<real>
    var valueOffline: array<real>
    var valueOnline: array<real>
    /** The date columns, by name. */
    var dates: map<string, seq<DateCell>>
    /** `interested_in_categories_12`; `None` for a missing value. */
    var categories: seq<Option<string>>
    /** Numeric columns the analyses add, by name. */
    var added: map<string, seq<real>>

    function Column(c: NumericColumn): array<real>
      reads this
    {
      match c
      case OrderNumOnline => orderNumOnline
      case OrderNumOffline => orderNumOffline
      case ValueOffline => valueOffline
      case ValueOnline => valueOnline
    }

    /** Every column has one cell per row, the four arrays are distinct
        objects, and the date columns are present. */
    ghost predicate Valid()
      reads this
    {
      && orderNumOnline.Length == |masterId|
      && orderNumOffline.Length == |masterId|
      && valueOffline.Length == |masterId|
      && valueOnline.Length == |masterId|
      && orderNumOnline != orderNumOffline && orderNumOnline != valueOffline && orderNumOnline != valueOnline
      && orderNumOffline != valueOffline && orderNumOffline != valueOnline && valueOffline != valueOnline
      && (forall c :: c in DateColumns ==> c in dates)
      && (forall c :: c in dates ==> |dates[c]| == |masterId|)
      && |categories| == |masterId|
      && (forall c :: c in added ==> |added[c]| == |masterId|)
    }

    /** A table with the given columns and no added ones. */
    constructor (ids: seq<string>, onlineOrders: seq<real>, offlineOrders: seq<real>,
                 offlineValues: seq<real>, onlineValues: seq<real>,
                 dateCols: map<string, seq<DateCell>>, cats: seq<Option<string>>)
      requires |onlineOrders| == |ids| && |offlineOrders| == |ids|
      requires |offlineValues| == |ids| && |onlineValues| == |ids| && |cats| == |ids|
      requires forall c :: c in DateColumns ==> c in dateCols
      requires forall c :: c in dateCols ==> |dateCols[c]| == |ids|
      ensures Valid()
      ensures masterId == ids && dates == dateCols && categories == cats && added == map[]
      ensures orderNumOnline[..] == onlineOrders && orderNumOffline[..] == offlineOrders
      ensures valueOffline[..] == offlineValues && valueOnline[..] == onlineValues
      ensures fresh(orderNumOnline) && fresh(orderNumOffline) && fresh(valueOffline) && fresh(valueOnline)
    {
      masterId := ids;
      orderNumOnline := new real[|ids|](i requires 0 <= i < |ids| => onlineOrders[i]);
      orderNumOffline := new real[|ids|](i requires 0 <= i < |ids| => offlineOrders[i]);
      valueOffline := new real[|ids|](i requires 0 <= i < |ids| => offlineValues[i]);
      valueOnline := new real[|ids|](i requires 0 <= i < |ids| => onlineValues[i]);
      dates := dateCols;
      categories := cats;
      added := map[];
    }

    /** `dataframe.copy()`: a new table, with its own arrays, holding the same values. */
    method Copy() returns (f: Frame)
      requires Valid()
      ensures fresh(f) && fresh(f.orderNumOnline) && fresh(f.orderNumOffline)
      ensures fresh(f.valueOffline) && fresh(f.valueOnline)
      ensures f.Valid()
      ensures f.masterId == masterId && f.dates == dates && f.categories == categories && f.added == added
      ensures forall c :: f.Column(c)[..] == Column(c)[..]
    {
      f := new Frame(masterId, orderNumOnline[..], orderNumOffline[..], valueOffline[..], valueOnline[..],
                     dates, categories);
      f.added := added;
    }

    /** `df[name] = values`: adds the column, or replaces it if present. */
    method SetColumn(name: string, values: seq<real>)
      requires Valid() && |values| == |masterId|
      modifies this
      ensures Valid()
      ensures added == old(added)[name := values]
      ensures masterId == old(masterId) && dates == old(dates) && categories == old(categories)
      ensures forall c :: Column(c) == old(Column(c))
    {
      added := added[name := values];
    }

    /** `for col in cols: df[col] = pd.to_datetime(df[col])`. */
    method ToDatetimeColumns(cols: seq<string>, parse: string -> int)
      requires Valid() && forall k :: 0 <= k < |cols| ==> cols[k] in dates
      modifies this
      ensures Valid()
      ensures dates.Keys == old(dates).Keys
      ensures forall c :: c in dates ==>
        dates[c] == if c in cols then ToDatetimeColumn(parse, old(dates)[c]) else old(dates)[c]
      ensures masterId == old(masterId) && categories == old(categories) && added == old(added)
      ensures forall c :: Column(c) == old(Column(c))
    {
      var i := 0;
      while i < |cols|
        invariant 0 <= i <= |cols|
        invariant Valid()
        invariant dates.Keys == old(dates).Keys
        invariant forall c :: c in dates ==>
          dates[c] == if c in cols[..i] then ToDatetimeColumn(parse, old(dates)[c]) else old(dates)[c]
        invariant masterId == old(masterId) && categories == old(categories) && added == old(added)
        invariant forall c :: Column(c) == old(Column(c))
      {
        var col := cols[i];
        ToDatetimeColumnIdempotent(parse, old(dates)[col]);
        dates := dates[col := ToDatetimeColumn(parse, dates[col])];
        assert cols[..i + 1] == cols[..i] + [col];
        forall c | c in dates
          ensures dates[c] == if c in cols[..i + 1] then ToDatetimeColumn(parse, old(dates)[c]) else old(dates)[c]
        {
          if c != col {
            assert c in cols[..i + 1] <==> c in cols[..i];
          }
        }
        i := i + 1;
      }
      assert cols[..i] == cols;
    }
  }

  /** `preprocess_flo_data(df)` (caseStudy5/FLO_RFM.py:94-132): adds the
      omnichannel totals `TotalPrice` and `TotalOrder` to the caller's table
      and converts its date columns, both in place. The channel report and the
      two top-10 listings it also returns are display only and not modelled. */
  method PreprocessFloData(df: Frame, parse: string -> int)
    requires df.Valid()
    modifies df
    ensures df.Valid()
    ensures df.added == old(df.added)
      ["TotalPrice" := Plus(df.valueOffline[..], df.valueOnline[..])]
      ["TotalOrder" := Plus(df.orderNumOffline[..], df.orderNumOnline[..])]
    ensures df.dates.Keys == old(df.dates).Keys
    ensures forall c :: c in df.dates ==>
      df.dates[c] == if c in DateColumns then ToDatetimeColumn(parse, old(df.dates)[c]) else old(df.dates)[c]
    ensures df.masterId == old(df.masterId) && df.categories == old(df.categories)
    ensures forall c :: df.Column(c) == old(df.Column(c))
  {
    df.SetColumn("TotalPrice", Plus(df.valueOffline[..], df.valueOnline[..]));
    df.SetColumn("TotalOrder", Plus(df.orderNumOffline[..], df.orderNumOnline[..]));
    df.ToDatetimeColumns(DateColumns, parse);
    assert df.Column(ValueOffline) == old(df.Column(ValueOffline));
    assert df.Column(ValueOnline) == old(df.Column(ValueOnline));
    assert df.Column(OrderNumOffline) == old(df.Column(OrderNumOffline));
    assert df.Column(OrderNumOnline) == old(df.Column(OrderNumOnline));
  }
}

/** The tracker's state and the handlers that change it: the record list
    (`otRecords`) and the settings (`appSettings`), updated in place by the
    form-submit, delete and save-settings handlers. */
module Tracker {
  import opened Numbers
  import opened Duration
  import opened Wages
  import opened Records

  /** The fields of the add-OT form; `None` is a field left empty. */
  datatype OTForm = OTForm(
    date: Option<Date>,
    startTime: Option<ClockTime>,
    endTime: Option<ClockTime>,
    description: string)

  datatype AddError = RateNotSet | MissingField

  class OTTracker {
    var records: seq<OTRecord>
    var settings: Settings

    /** Settings are always ones the save-settings checks accept (or the
        defaults), and every stored record is consistent. */
    ghost predicate Valid()
      reads this
    {
      && WellFormed(settings)
      && forall i :: 0 <= i < |records| ==> Consistent(records[i])
    }

    /** A fresh tracker: no records and the default settings. */
    constructor ()
      ensures Valid()
      ensures records == [] && settings == DEFAULT_SETTINGS
    {
      records := [];
      settings := DEFAULT_SETTINGS;
    }

    /** The save-settings handler: both values are checked, rate first; on a
        refusal nothing changes, otherwise both fields are overwritten. The
        record list is never touched, so stored earnings keep the rate they
        were computed with. */
    method SaveSettings(rate: Number, multiplier: Number) returns (r: Result<Settings, SettingsError>)
      requires Valid()
      modifies this
      ensures Valid()
      ensures r == ValidateSettings(rate, multiplier)
      ensures r.Ok? ==> settings == Settings(rate, multiplier)
      ensures r.Err? ==> settings == old(settings)
      ensures records == old(records)
    {
      r := ValidateSettings(rate, multiplier);
      if r.Ok? {
        settings := r.value;
      }
    }

    /** The form-submit handler: refused while the rate is not a positive
        number, then while a required field is empty; otherwise the new record,
        priced with the current settings, goes to the head of the list. */
    method AddRecord(form: OTForm) returns (r: Result<OTRecord, AddError>)
      requires Valid()
      modifies this
      ensures Valid()
      ensures settings == old(settings)
      ensures r == Err(RateNotSet) <==> !IsPositive(settings.hourlyRate)
      ensures r == Err(MissingField) <==>
                IsPositive(settings.hourlyRate) &&
                (form.date.None? || form.startTime.None? || form.endTime.None?)
      ensures r.Ok? <==>
                IsPositive(settings.hourlyRate) &&
                form.date.Some? && form.startTime.Some? && form.endTime.Some?
      ensures r.Err? ==> records == old(records)
      ensures r.Ok? ==> records == [r.value] + old(records)
      ensures r.Ok? ==>
                && r.value.date == form.date.value
                && r.value.startTime == form.startTime.value
                && r.value.endTime == form.endTime.value
                && r.value.description == form.description
                && r.value.duration == DurationHours(form.startTime.value, form.endTime.value)
                && r.value.earnings ==
                     r.value.duration * settings.hourlyRate.value * settings.otMultiplier.value
    {
      if !IsPositive(settings.hourlyRate) {
        return Err(RateNotSet);
      }
      if form.date.None? || form.startTime.None? || form.endTime.None? {
        return Err(MissingField);
      }
      var duration := DurationHours(form.startTime.value, form.endTime.value);
      var earnings := Earnings(duration, settings);
      var record := OTRecord(form.date.value, form.startTime.value, form.endTime.value,
                             duration, form.description, earnings.value);
      records := [record] + records;
      r := Ok(record);
    }

    /** The delete handler: `splice(index, 1)` on the record list. */
    method DeleteRecord(index: nat)
      requires Valid()
      modifies this
      ensures Valid()
      ensures records == RemoveAt(old(records), index)
      ensures settings == old(settings)
    {
      records := RemoveAt(records, index);
    }
  }

  /** A session at the tracker, told only through the handlers' contracts: a
      record is refused until a rate is saved, and an add with an empty end
      field is refused. A 09:00-09:00 shift lasts and earns nothing, 18:00-20:00
      lasts two hours and earns 300, and the overnight 22:00-06:00 shift lasts
      eight hours and earns 8 * 100 * 1.5. A multiplier below one is refused
      without touching the settings, and a deletion removes exactly the record
      at its position. */
  method OvernightScenario()
  {
    var tracker := new OTTracker();
    var today := Date(2024, 5, 10);
    var overnight := OTForm(Some(today), Some(22 * 60), Some(6 * 60), "");
    var refused := tracker.AddRecord(overnight);
    assert refused == Err(RateNotSet);
    var saved := tracker.SaveSettings(Num(100.0), Num(1.5));
    assert saved.Ok?;
    var noEnd := tracker.AddRecord(OTForm(Some(today), Some(22 * 60), None, ""));
    assert noEnd == Err(MissingField) && tracker.records == [];
    var lastYear := tracker.AddRecord(OTForm(Some(Date(2023, 5, 10)), Some(9 * 60), Some(9 * 60), ""));
    assert lastYear.Ok? && lastYear.value.duration == 0.0 && lastYear.value.earnings == 0.0;
    var earlier := tracker.AddRecord(OTForm(Some(Date(2024, 5, 2)), Some(18 * 60), Some(20 * 60), ""));
    assert earlier.Ok? && earlier.value.duration == 2.0 && earlier.value.earnings == 300.0;
    var added := tracker.AddRecord(overnight);
    assert added.Ok? && added.value.duration == 8.0 && added.value.earnings == 1200.0;
    assert tracker.records == [added.value, earlier.value, lastYear.value];
    var badMultiplier := tracker.SaveSettings(Num(100.0), Num(0.5));
    assert badMultiplier == Err(InvalidMultiplier) && tracker.settings == Settings(Num(100.0), Num(1.5));
    tracker.DeleteRecord(0);
    assert tracker.records == [earlier.value, lastYear.value];
  }
}

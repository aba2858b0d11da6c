/** The closed table of Iraq's 18 governorates (src/lib/governorates.ts): a machine id,
    the English display name and the Arabic display name, in a fixed order. */
module Governorates {
  import opened Wrappers

  datatype Governorate = Governorate(id: string, name: string, nameAr: string)

  /** `GOVERNORATES`, in the order selection lists show it. */
  const Table: seq<Governorate> := [
    Governorate("baghdad", "Baghdad", "بغداد"),
    Governorate("basra", "Basra", "البصرة"),
    Governorate("nineveh", "Nineveh", "نينوى"),
    Governorate("anbar", "Anbar", "الأنبار"),
    Governorate("kirkuk", "Kirkuk", "كركوك"),
    Governorate("salahdin", "Salah al-Din", "صلاح الدين"),
    Governorate("diyala", "Diyala", "ديالى"),
    Governorate("babil", "Babil", "بابل"),
    Governorate("karbala", "Karbala", "كربلاء"),
    Governorate("najaf", "Najaf", "النجف"),
    Governorate("wasit", "Wasit", "واسط"),
    Governorate("maysan", "Maysan", "ميسان"),
    Governorate("dhiqar", "Dhi Qar", "ذي قار"),
    Governorate("muthanna", "Al-Muthanna", "المثنى"),
    Governorate("qadisiyyah", "Al-Qadisiyyah", "القادسية"),
    Governorate("erbil", "Erbil", "أربيل"),
    Governorate("sulaymaniyah", "Sulaymaniyah", "السليمانية"),
    Governorate("duhok", "Duhok", "دهوك")
  ]

  /** `s` is the id of some table entry. */
  predicate IsId(s: string) {
    exists i :: 0 <= i < |Table| && Table[i].id == s
  }

  /** `GovernorateId`: the union of the ids the table declares. */
  type GovernorateId = s: string | IsId(s) witness Table[0].id

  /** `GOVERNORATES.find(g => g.id === id)`: the first entry of `gs` whose id is `id`. */
  function FindIn(gs: seq<Governorate>, id: string): (r: Option<Governorate>)
    ensures r.Some? ==> exists k :: 0 <= k < |gs| && gs[k] == r.value && r.value.id == id &&
                                    forall j :: 0 <= j < k ==> gs[j].id != id
    ensures r.None? <==> forall k :: 0 <= k < |gs| ==> gs[k].id != id
  {
    if gs == [] then None
    else if gs[0].id == id then Some(gs[0])
    else
      var r := FindIn(gs[1..], id);
      assert r.Some? ==> exists k :: 0 <= k < |gs[1..]| && gs[1..][k] == r.value;
      assert forall k :: 1 <= k < |gs| ==> gs[k] == gs[1..][k - 1];
      r
  }

  /** Lookup by id over the whole table. */
  function Find(id: string): Option<Governorate> {
    FindIn(Table, id)
  }

  /** The table has exactly 18 entries, "baghdad" first and "duhok" last. */
  lemma TableShape()
    ensures |Table| == 18
    ensures Table[0].id == "baghdad" && Table[|Table| - 1].id == "duhok"
  {
  }

  /** Ids are pairwise distinct. */
  lemma IdsDistinct()
    ensures forall i, j :: 0 <= i < j < |Table| ==> Table[i].id != Table[j].id
  {
  }

  /** Every entry has a non-empty English and Arabic name, and English names are pairwise distinct. */
  lemma NamesWellFormed()
    ensures forall i :: 0 <= i < |Table| ==> Table[i].name != "" && Table[i].nameAr != ""
    ensures forall i, j :: 0 <= i < j < |Table| ==> Table[i].name != Table[j].name
  {
  }

  /** Since ids are distinct, lookup returns the unique entry that carries the id. */
  lemma {:induction false} FindUnique(id: string, i: int)
    requires 0 <= i < |Table| && Table[i].id == id
    ensures Find(id) == Some(Table[i])
  {
    IdsDistinct();
  }

  /** Lookup never fails for a typed id. */
  lemma {:induction false} FindTotal(id: GovernorateId)
    ensures Find(id).Some? && Find(id).value.id == id
  {
    var i :| 0 <= i < |Table| && Table[i].id == id;
    FindUnique(id, i);
  }

  /** "baghdad" resolves to the entry whose names are "Baghdad" and "بغداد". */
  lemma BaghdadEntry()
    ensures Find("baghdad") == Some(Governorate("baghdad", "Baghdad", "بغداد"))
  {
  }
}

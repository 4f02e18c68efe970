/**
 * The hard-coded `SENATOR_DATA` table of app/api/representatives/route.ts: for
 * each of the fifty state abbreviations, the state's two senators with their
 * contact page, fax number and telephone number.
 *
 * Each delegation is a pair, and a fax number is kept as the ten digits after
 * `+1`, a number below 10^10, so every entry having exactly two senators is
 * checked by its type, and every fax number having the form `+1` and ten
 * digits is proved once, for all entries, by `Senator.Fax`.
 */
module SenatorTable {
  import opened Wrappers
  import Text

  /** `+1` followed by ten decimal digits: a North American number in E.164 form. */
  predicate IsUsFaxNumber(s: string)
  {
    |s| == 12 && s[..2] == "+1" && Text.IsDigits(s[2..])
  }

  function Pow10(k: nat): nat
  {
    if k == 0 then 1 else 10 * Pow10(k - 1)
  }

  /** The ten digits of a fax number after `+1`, as a number. */
  type FaxDigits = n: nat | n < 10_000_000_000

  /** `n` written with exactly `width` decimal digits, leading zeros included. */
  function PaddedDecimal(n: nat, width: nat): (s: string)
    ensures |s| == width && Text.IsDigits(s)
  {
    if width == 0 then "" else PaddedDecimal(n / 10, width - 1) + [Text.DigitChar(n % 10)]
  }

  /** A number below 10^width reads back from its padded digits. */
  lemma {:induction false} PaddedDecimalValue(n: nat, width: nat)
    requires n < Pow10(width)
    ensures Text.DecimalValue(PaddedDecimal(n, width)) == n
  {
    if width > 0 {
      assert n / 10 < Pow10(width - 1);
      PaddedDecimalValue(n / 10, width - 1);
      var s := PaddedDecimal(n, width);
      assert s[..|s| - 1] == PaddedDecimal(n / 10, width - 1);
    }
  }

  datatype Senator = Senator(name: string, contactUrl: string, faxDigits: FaxDigits, phone: string) {

    /** The fax number as the table writes it: `+1` and the ten digits. */
    function Fax(): (s: string)
      ensures IsUsFaxNumber(s)
    {
      var digits := PaddedDecimal(faxDigits, 10);
      assert ("+1" + digits)[2..] == digits;
      "+1" + digits
    }
  }

  /** The digits after `+1` denote the senator's fax digits, so different numbers are written differently. */
  lemma FaxReadsBack(senator: Senator)
    ensures Text.DecimalValue(senator.Fax()[2..]) == senator.faxDigits
  {
    assert Pow10(10) == 10_000_000_000;
    PaddedDecimalValue(senator.faxDigits, 10);
    assert senator.Fax()[2..] == PaddedDecimal(senator.faxDigits, 10);
  }

  /** The two senators of one state, in the order the table lists them. */
  datatype Delegation = Delegation(first: Senator, second: Senator) {

    /** The delegation as the two-element array the table holds. */
    function Members(): (s: seq<Senator>)
      ensures |s| == 2
      ensures forall i :: 0 <= i < |s| ==> IsUsFaxNumber(s[i].Fax())
    {
      [first, second]
    }
  }

  function AL(): Delegation
  {
    Delegation(
      Senator("Tommy Tuberville", "https://www.tuberville.senate.gov/contact", 202_224_3416, "202-224-4124"),
      Senator("Katie Britt", "https://www.britt.senate.gov/contact", 202_228_0074, "202-224-5744"))
  }

  function AK(): Delegation
  {
    Delegation(
      Senator("Lisa Murkowski", "https://www.murkowski.senate.gov/contact", 202_224_5301, "202-224-6665"),
      Senator("Dan Sullivan", "https://www.sullivan.senate.gov/contact", 202_224_6455, "202-224-3004"))
  }

  function AZ(): Delegation
  {
    Delegation(
      Senator("Ruben Gallego", "https://www.gallego.senate.gov/contact", 202_224_4521, "202-224-4521"),
      Senator("Mark Kelly", "https://www.kelly.senate.gov/contact", 202_224_2235, "202-224-2235"))
  }

  function AR(): Delegation
  {
    Delegation(
      Senator("John Boozman", "https://www.boozman.senate.gov/contact", 202_228_1371, "202-224-4843"),
      Senator("Tom Cotton", "https://www.cotton.senate.gov/contact", 202_228_1371, "202-224-2353"))
  }

  function CA(): Delegation
  {
    Delegation(
      Senator("Alex Padilla", "https://www.padilla.senate.gov/contact", 202_224_2200, "202-224-3553"),
      Senator("Adam Schiff", "https://www.schiff.senate.gov/contact", 202_224_2200, "202-224-3841"))
  }

  function CO(): Delegation
  {
    Delegation(
      Senator("Michael Bennet", "https://www.bennet.senate.gov/contact", 202_228_5036, "202-224-5852"),
      Senator("John Hickenlooper", "https://www.hickenlooper.senate.gov/contact", 202_224_5271, "202-224-5941"))
  }

  function CT(): Delegation
  {
    Delegation(
      Senator("Richard Blumenthal", "https://www.blumenthal.senate.gov/contact", 202_224_9673, "202-224-2823"),
      Senator("Chris Murphy", "https://www.murphy.senate.gov/contact", 202_224_9750, "202-224-4041"))
  }

  function DE(): Delegation
  {
    Delegation(
      Senator("Tom Carper", "https://www.carper.senate.gov/contact", 202_228_2190, "202-224-2441"),
      Senator("Chris Coons", "https://www.coons.senate.gov/contact", 202_228_0002, "202-224-5042"))
  }

  function FL(): Delegation
  {
    Delegation(
      Senator("Marco Rubio", "https://www.rubio.senate.gov/contact", 202_228_0285, "202-224-3041"),
      Senator("Rick Scott", "https://www.rickscott.senate.gov/contact", 202_228_5171, "202-224-5274"))
  }

  function GA(): Delegation
  {
    Delegation(
      Senator("Jon Ossoff", "https://www.ossoff.senate.gov/contact", 202_224_2441, "202-224-3521"),
      Senator("Raphael Warnock", "https://www.warnock.senate.gov/contact", 202_224_2441, "202-224-3643"))
  }

  function HI(): Delegation
  {
    Delegation(
      Senator("Brian Schatz", "https://www.schatz.senate.gov/contact", 202_228_1153, "202-224-3934"),
      Senator("Mazie Hirono", "https://www.hirono.senate.gov/contact", 202_224_2235, "202-224-6361"))
  }

  function ID(): Delegation
  {
    Delegation(
      Senator("Mike Crapo", "https://www.crapo.senate.gov/contact", 202_228_1375, "202-224-6142"),
      Senator("Jim Risch", "https://www.risch.senate.gov/public/index.cfm/contact", 202_224_2573, "202-224-2752"))
  }

  function IL(): Delegation
  {
    Delegation(
      Senator("Dick Durbin", "https://www.durbin.senate.gov/contact", 202_228_0400, "202-224-2152"),
      Senator("Tammy Duckworth", "https://www.duckworth.senate.gov/connect/email-tammy", 202_228_5417, "202-224-2854"))
  }

  function IN(): Delegation
  {
    Delegation(
      Senator("Todd Young", "https://www.young.senate.gov/contact", 202_224_1845, "202-224-5623"),
      Senator("Mike Braun", "https://www.braun.senate.gov/contact", 202_224_1845, "202-224-4814"))
  }

  function IA(): Delegation
  {
    Delegation(
      Senator("Chuck Grassley", "https://www.grassley.senate.gov/contact", 202_224_6020, "202-224-3744"),
      Senator("Joni Ernst", "https://www.ernst.senate.gov/contact", 202_224_9369, "202-224-3254"))
  }

  function KS(): Delegation
  {
    Delegation(
      Senator("Jerry Moran", "https://www.moran.senate.gov/public/index.cfm/e-mail-jerry", 202_228_6966, "202-224-6521"),
      Senator("Roger Marshall", "https://www.marshall.senate.gov/contact", 202_224_6507, "202-224-4774"))
  }

  function KY(): Delegation
  {
    Delegation(
      Senator("Mitch McConnell", "https://www.mcconnell.senate.gov/public/index.cfm/contactform", 202_224_2499, "202-224-2541"),
      Senator("Rand Paul", "https://www.paul.senate.gov/contact", 202_228_0315, "202-224-4343"))
  }

  function LA(): Delegation
  {
    Delegation(
      Senator("Bill Cassidy", "https://www.cassidy.senate.gov/contact", 202_224_9735, "202-224-5824"),
      Senator("John Kennedy", "https://www.kennedy.senate.gov/public/email-me", 202_224_2499, "202-224-4623"))
  }

  function ME(): Delegation
  {
    Delegation(
      Senator("Susan Collins", "https://www.collins.senate.gov/contact", 202_224_2693, "202-224-2523"),
      Senator("Angus King", "https://www.king.senate.gov/contact", 202_224_1946, "202-224-5344"))
  }

  function MD(): Delegation
  {
    Delegation(
      Senator("Ben Cardin", "https://www.cardin.senate.gov/contact", 202_224_1651, "202-224-4524"),
      Senator("Chris Van Hollen", "https://www.vanhollen.senate.gov/contact", 202_224_1651, "202-224-4654"))
  }

  function MA(): Delegation
  {
    Delegation(
      Senator("Elizabeth Warren", "https://www.warren.senate.gov/contact", 202_224_2417, "202-224-4543"),
      Senator("Ed Markey", "https://www.markey.senate.gov/contact", 202_224_2417, "202-224-2742"))
  }

  function MI(): Delegation
  {
    Delegation(
      Senator("Gary Peters", "https://www.peters.senate.gov/contact", 202_224_1845, "202-224-6221"),
      Senator("Elissa Slotkin", "https://www.slotkin.senate.gov/contact", 202_224_1845, "202-224-4822"))
  }

  function MN(): Delegation
  {
    Delegation(
      Senator("Amy Klobuchar", "https://www.klobuchar.senate.gov/public/index.cfm/contact", 202_224_4207, "202-224-3244"),
      Senator("Tina Smith", "https://www.smith.senate.gov/contact", 202_224_4207, "202-224-5641"))
  }

  function MS(): Delegation
  {
    Delegation(
      Senator("Roger Wicker", "https://www.wicker.senate.gov/contact", 202_228_0378, "202-224-6253"),
      Senator("Cindy Hyde-Smith", "https://www.hyde-smith.senate.gov/contact", 202_224_2499, "202-224-5054"))
  }

  function MO(): Delegation
  {
    Delegation(
      Senator("Josh Hawley", "https://www.hawley.senate.gov/contact", 202_224_3514, "202-224-6154"),
      Senator("Eric Schmitt", "https://www.schmitt.senate.gov/contact", 202_224_3514, "202-224-5721"))
  }

  function MT(): Delegation
  {
    Delegation(
      Senator("Jon Tester", "https://www.tester.senate.gov/contact", 202_224_8594, "202-224-2644"),
      Senator("Steve Daines", "https://www.daines.senate.gov/contact", 202_224_1724, "202-224-2651"))
  }

  function NE(): Delegation
  {
    Delegation(
      Senator("Deb Fischer", "https://www.fischer.senate.gov/public/index.cfm/contact", 202_224_2354, "202-224-6551"),
      Senator("Pete Ricketts", "https://www.ricketts.senate.gov/contact", 202_224_2354, "202-224-4224"))
  }

  function NV(): Delegation
  {
    Delegation(
      Senator("Catherine Cortez Masto", "https://www.cortezmasto.senate.gov/contact", 202_228_0325, "202-224-3542"),
      Senator("Jacky Rosen", "https://www.rosen.senate.gov/contact", 202_228_0325, "202-224-6244"))
  }

  function NH(): Delegation
  {
    Delegation(
      Senator("Jeanne Shaheen", "https://www.shaheen.senate.gov/contact", 202_224_2441, "202-224-2841"),
      Senator("Maggie Hassan", "https://www.hassan.senate.gov/contact", 202_224_2441, "202-224-3324"))
  }

  function NJ(): Delegation
  {
    Delegation(
      Senator("Cory Booker", "https://www.booker.senate.gov/contact", 202_224_2441, "202-224-3224"),
      Senator("Andy Kim", "https://www.kim.senate.gov/contact", 202_228_2197, "202-224-4744"))
  }

  function NM(): Delegation
  {
    Delegation(
      Senator("Martin Heinrich", "https://www.heinrich.senate.gov/contact", 202_228_0307, "202-224-5521"),
      Senator("Ben Ray Luján", "https://www.lujan.senate.gov/contact", 202_228_0307, "202-224-6621"))
  }

  function NY(): Delegation
  {
    Delegation(
      Senator("Chuck Schumer", "https://www.schumer.senate.gov/contact", 202_228_0029, "202-224-6542"),
      Senator("Kirsten Gillibrand", "https://www.gillibrand.senate.gov/contact", 202_228_0282, "202-224-4451"))
  }

  function NC(): Delegation
  {
    Delegation(
      Senator("Thom Tillis", "https://www.tillis.senate.gov/email-me", 202_228_0440, "202-224-6342"),
      Senator("Ted Budd", "https://www.budd.senate.gov/contact", 202_228_0440, "202-224-3154"))
  }

  function ND(): Delegation
  {
    Delegation(
      Senator("John Hoeven", "https://www.hoeven.senate.gov/contact", 202_224_7999, "202-224-2551"),
      Senator("Kevin Cramer", "https://www.cramer.senate.gov/contact", 202_224_7999, "202-224-2043"))
  }

  function OH(): Delegation
  {
    Delegation(
      Senator("Bernie Moreno", "https://www.moreno.senate.gov/contact", 202_224_2441, "202-224-2315"),
      Senator("JD Vance", "https://www.vance.senate.gov/contact", 202_224_2441, "202-224-3353"))
  }

  function OK(): Delegation
  {
    Delegation(
      Senator("James Lankford", "https://www.lankford.senate.gov/contact", 202_228_4884, "202-224-5754"),
      Senator("Markwayne Mullin", "https://www.mullin.senate.gov/contact", 202_228_4884, "202-224-4721"))
  }

  function OR(): Delegation
  {
    Delegation(
      Senator("Ron Wyden", "https://www.wyden.senate.gov/contact", 202_228_2717, "202-224-5244"),
      Senator("Jeff Merkley", "https://www.merkley.senate.gov/contact", 202_228_2717, "202-224-3753"))
  }

  function PA(): Delegation
  {
    Delegation(
      Senator("John Fetterman", "https://www.fetterman.senate.gov/contact", 202_228_0604, "202-224-4254"),
      Senator("Dave McCormick", "https://www.mccormick.senate.gov/contact", 202_228_0604, "202-224-6324"))
  }

  function RI(): Delegation
  {
    Delegation(
      Senator("Jack Reed", "https://www.reed.senate.gov/contact", 202_224_4680, "202-224-4642"),
      Senator("Sheldon Whitehouse", "https://www.whitehouse.senate.gov/contact", 202_224_4680, "202-224-2921"))
  }

  function SC(): Delegation
  {
    Delegation(
      Senator("Lindsey Graham", "https://www.lgraham.senate.gov/public/index.cfm/e-mail-senator-graham", 202_224_3808, "202-224-5972"),
      Senator("Tim Scott", "https://www.scott.senate.gov/contact", 202_224_3808, "202-224-6121"))
  }

  function SD(): Delegation
  {
    Delegation(
      Senator("John Thune", "https://www.thune.senate.gov/public/index.cfm/contact", 202_224_2592, "202-224-2321"),
      Senator("Mike Rounds", "https://www.rounds.senate.gov/contact", 202_224_2592, "202-224-5842"))
  }

  function TN(): Delegation
  {
    Delegation(
      Senator("Marsha Blackburn", "https://www.blackburn.senate.gov/contact", 202_228_0566, "202-224-3344"),
      Senator("Bill Hagerty", "https://www.hagerty.senate.gov/contact", 202_228_0566, "202-224-4944"))
  }

  function TX(): Delegation
  {
    Delegation(
      Senator("John Cornyn", "https://www.cornyn.senate.gov/contact", 202_224_0776, "202-224-2934"),
      Senator("Ted Cruz", "https://www.cruz.senate.gov/contact", 202_224_0776, "202-224-5922"))
  }

  function UT(): Delegation
  {
    Delegation(
      Senator("Mike Lee", "https://www.lee.senate.gov/contact", 202_228_1168, "202-224-5444"),
      Senator("Mitt Romney", "https://www.romney.senate.gov/contact", 202_228_1168, "202-224-5251"))
  }

  function VT(): Delegation
  {
    Delegation(
      Senator("Bernie Sanders", "https://www.sanders.senate.gov/contact", 202_224_2441, "202-224-5141"),
      Senator("Peter Welch", "https://www.welch.senate.gov/contact", 202_224_2441, "202-224-4242"))
  }

  function VA(): Delegation
  {
    Delegation(
      Senator("Mark Warner", "https://www.warner.senate.gov/contact", 202_228_0562, "202-224-2023"),
      Senator("Tim Kaine", "https://www.kaine.senate.gov/contact", 202_228_0562, "202-224-4024"))
  }

  function WA(): Delegation
  {
    Delegation(
      Senator("Patty Murray", "https://www.murray.senate.gov/contact", 202_224_0238, "202-224-2621"),
      Senator("Maria Cantwell", "https://www.cantwell.senate.gov/contact", 202_224_0238, "202-224-3441"))
  }

  function WV(): Delegation
  {
    Delegation(
      Senator("Joe Manchin", "https://www.manchin.senate.gov/contact", 202_228_0002, "202-224-3954"),
      Senator("Shelley Moore Capito", "https://www.capito.senate.gov/contact", 202_228_0002, "202-224-6472"))
  }

  function WI(): Delegation
  {
    Delegation(
      Senator("Tammy Baldwin", "https://www.baldwin.senate.gov/contact", 202_224_1845, "202-224-5653"),
      Senator("Mandela Barnes", "https://www.barnes.senate.gov/contact", 202_224_1845, "202-224-5323"))
  }

  function WY(): Delegation
  {
    Delegation(
      Senator("John Barrasso", "https://www.barrasso.senate.gov/contact", 202_228_1375, "202-224-6441"),
      Senator("Cynthia Lummis", "https://www.lummis.senate.gov/contact", 202_228_1375, "202-224-3424"))
  }

  /** The delegations whose key starts with `A`, by the key's second letter. */
  function InitialA(second: char): Option<Delegation>
  {
    match second
    case 'L' => Some(AL())
    case 'K' => Some(AK())
    case 'Z' => Some(AZ())
    case 'R' => Some(AR())
    case _ => None
  }

  /** The delegations whose key starts with `C`, by the key's second letter. */
  function InitialC(second: char): Option<Delegation>
  {
    match second
    case 'A' => Some(CA())
    case 'O' => Some(CO())
    case 'T' => Some(CT())
    case _ => None
  }

  /** The delegations whose key starts with `D`, by the key's second letter. */
  function InitialD(second: char): Option<Delegation>
  {
    match second
    case 'E' => Some(DE())
    case _ => None
  }

  /** The delegations whose key starts with `F`, by the key's second letter. */
  function InitialF(second: char): Option<Delegation>
  {
    match second
    case 'L' => Some(FL())
    case _ => None
  }

  /** The delegations whose key starts with `G`, by the key's second letter. */
  function InitialG(second: char): Option<Delegation>
  {
    match second
    case 'A' => Some(GA())
    case _ => None
  }

  /** The delegations whose key starts with `H`, by the key's second letter. */
  function InitialH(second: char): Option<Delegation>
  {
    match second
    case 'I' => Some(HI())
    case _ => None
  }

  /** The delegations whose key starts with `I`, by the key's second letter. */
  function InitialI(second: char): Option<Delegation>
  {
    match second
    case 'D' => Some(ID())
    case 'L' => Some(IL())
    case 'N' => Some(IN())
    case 'A' => Some(IA())
    case _ => None
  }

  /** The delegations whose key starts with `K`, by the key's second letter. */
  function InitialK(second: char): Option<Delegation>
  {
    match second
    case 'S' => Some(KS())
    case 'Y' => Some(KY())
    case _ => None
  }

  /** The delegations whose key starts with `L`, by the key's second letter. */
  function InitialL(second: char): Option<Delegation>
  {
    match second
    case 'A' => Some(LA())
    case _ => None
  }

  /** The delegations whose key starts with `M`, by the key's second letter. */
  function InitialM(second: char): Option<Delegation>
  {
    match second
    case 'E' => Some(ME())
    case 'D' => Some(MD())
    case 'A' => Some(MA())
    case 'I' => Some(MI())
    case 'N' => Some(MN())
    case 'S' => Some(MS())
    case 'O' => Some(MO())
    case 'T' => Some(MT())
    case _ => None
  }

  /** The delegations whose key starts with `N`, by the key's second letter. */
  function InitialN(second: char): Option<Delegation>
  {
    match second
    case 'E' => Some(NE())
    case 'V' => Some(NV())
    case 'H' => Some(NH())
    case 'J' => Some(NJ())
    case 'M' => Some(NM())
    case 'Y' => Some(NY())
    case 'C' => Some(NC())
    case 'D' => Some(ND())
    case _ => None
  }

  /** The delegations whose key starts with `O`, by the key's second letter. */
  function InitialO(second: char): Option<Delegation>
  {
    match second
    case 'H' => Some(OH())
    case 'K' => Some(OK())
    case 'R' => Some(OR())
    case _ => None
  }

  /** The delegations whose key starts with `P`, by the key's second letter. */
  function InitialP(second: char): Option<Delegation>
  {
    match second
    case 'A' => Some(PA())
    case _ => None
  }

  /** The delegations whose key starts with `R`, by the key's second letter. */
  function InitialR(second: char): Option<Delegation>
  {
    match second
    case 'I' => Some(RI())
    case _ => None
  }

  /** The delegations whose key starts with `S`, by the key's second letter. */
  function InitialS(second: char): Option<Delegation>
  {
    match second
    case 'C' => Some(SC())
    case 'D' => Some(SD())
    case _ => None
  }

  /** The delegations whose key starts with `T`, by the key's second letter. */
  function InitialT(second: char): Option<Delegation>
  {
    match second
    case 'N' => Some(TN())
    case 'X' => Some(TX())
    case _ => None
  }

  /** The delegations whose key starts with `U`, by the key's second letter. */
  function InitialU(second: char): Option<Delegation>
  {
    match second
    case 'T' => Some(UT())
    case _ => None
  }

  /** The delegations whose key starts with `V`, by the key's second letter. */
  function InitialV(second: char): Option<Delegation>
  {
    match second
    case 'T' => Some(VT())
    case 'A' => Some(VA())
    case _ => None
  }

  /** The delegations whose key starts with `W`, by the key's second letter. */
  function InitialW(second: char): Option<Delegation>
  {
    match second
    case 'A' => Some(WA())
    case 'V' => Some(WV())
    case 'I' => Some(WI())
    case 'Y' => Some(WY())
    case _ => None
  }

  /**
   * `SENATOR_DATA[st]`: the delegation listed under `st`, found by the key's
   * first and second letter; `None` when the table has no such key.
   */
  function SenatorData(st: string): Option<Delegation>
  {
    match Key(st)
    case None => None
    case Some((first, second)) => Lookup(first, second)
  }

  /** The two letters of a two-letter key. */
  function Key(st: string): (r: Option<(char, char)>)
    ensures r.Some? <==> |st| == 2
    ensures r.Some? ==> st == [r.value.0, r.value.1]
  {
    if |st| == 2 then Some((st[0], st[1])) else None
  }

  /** The delegation under the two-letter key `first` `second`. */
  function Lookup(first: char, second: char): Option<Delegation>
  {
    match first
    case 'A' => InitialA(second)
    case 'C' => InitialC(second)
    case 'D' => InitialD(second)
    case 'F' => InitialF(second)
    case 'G' => InitialG(second)
    case 'H' => InitialH(second)
    case 'I' => InitialI(second)
    case 'K' => InitialK(second)
    case 'L' => InitialL(second)
    case 'M' => InitialM(second)
    case 'N' => InitialN(second)
    case 'O' => InitialO(second)
    case 'P' => InitialP(second)
    case 'R' => InitialR(second)
    case 'S' => InitialS(second)
    case 'T' => InitialT(second)
    case 'U' => InitialU(second)
    case 'V' => InitialV(second)
    case 'W' => InitialW(second)
    case _ => None
  }
}

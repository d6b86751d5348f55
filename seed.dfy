/** The sample data of constants.ts. Its dates are taken when the module is
    loaded, so every seed function takes that instant, `today`. */
module Seed {
  import opened Domain

  function MockCustomers(today: Instant): seq<Customer>
  {
    [ Customer("1", "Ismael Silva", "123.456.789-00", "5511999999999",
               "ismael@example.com", "Rua das Flores, 123, Centro", false, today),
      Customer("2", "Ana Pereira", "987.654.321-11", "5511988888888",
               "ana@example.com", "Av. Brasil, 456, Jardins", false, today) ]
  }

  function MockNotes(today: Instant): seq<PromissoryNote>
  {
    var tomorrow, yesterday := AddDays(today, 1), AddDays(today, -1);
    [ PromissoryNote("1001", "1", "Ismael Silva", "5511999999999", "123.456.789-00",
                     [CartItem("p1", "Camisa Polo Premium", 2, 15000)],
                     30000, yesterday, tomorrow, Pending, None, false),
      PromissoryNote("1002", "2", "Ana Pereira", "5511988888888", "987.654.321-11",
                     [CartItem("p2", "Conjunto Utensílios Inox", 1, 45000)],
                     45000, yesterday, yesterday, Overdue, None, true) ]
  }

  /** The seed holds two customers, neither VIP, and two notes: one PENDING
      and due tomorrow, one OVERDUE and due yesterday, each owned by one of
      the seed customers. */
  lemma SeedShape(today: Instant)
    ensures |MockCustomers(today)| == 2 && |MockNotes(today)| == 2
    ensures forall c :: c in MockCustomers(today) ==> !c.isVip
    ensures MockNotes(today)[0].status == Pending && MockNotes(today)[1].status == Overdue
    ensures Day(MockNotes(today)[0].dueDate) == Day(today) + 1
    ensures Day(MockNotes(today)[1].dueDate) == Day(today) - 1
    ensures forall i :: 0 <= i < 2 ==> MockNotes(today)[i].customerId == MockCustomers(today)[i].id
  {
    DayAddDays(today, 1);
    DayAddDays(today, -1);
  }
}
